/** The image table under the running pipeline: unique keys, retry counts and times, the
    pause gate, and which rows may be uploading. */
module Uploads {
  import opened Bytes
  import opened ImageTable
  import opened Gate
  import opened Pipeline

  // ---- Rows, retries and gates ----

  predicate RetryRow(r: Row, bound: int) {
    r.retryCount <= MAX_RETRIES && (r.nextRetryAt.Some? ==> r.nextRetryAt.value <= bound)
  }

  ghost predicate RetryRows(rows: seq<Row>, bound: int) {
    forall i :: 0 <= i < |rows| ==> RetryRow(rows[i], bound)
  }

  /** What a process carries between its steps. */
  ghost predicate PcInv(t: Table, pc: Pc, bound: int) {
    match pc
    case Working(WTransfer(_, retries)) => retries <= MAX_RETRIES
    case Working(WHandleFailure(_, retries)) => retries <= MAX_RETRIES
    case Working(WSetRetry(_, attempt, at)) => 1 <= attempt <= MAX_RETRIES && at <= bound
    case Doing(AWrite(d)) => Stands(t, Numbered(t, d))
    case _ => true
  }

  ghost predicate Inv(s: State) {
    && TableInv(s.table)
    && GatesInv(s.gates)
    && s.lastFailure <= s.now
    && RetryRows(s.table.rows, s.lastFailure + 20)
    && forall p :: p in s.procs ==> PcInv(s.table, s.procs[p], s.lastFailure + 20)
  }

  lemma StandsLater(t: Table, u: Table, d: Decision)
    requires Extends(t, u) && Stands(t, Numbered(t, d))
    ensures Stands(u, Numbered(u, d))
  {
    if !d.Insert? {
      var r :| r in t.rows && r.id == d.row.id;
      var i :| 0 <= i < |t.rows| && t.rows[i] == r;
      assert u.rows[i] in u.rows;
    }
  }

  lemma PcLater(t: Table, u: Table, pc: Pc, bound: int, later: int)
    requires Extends(t, u) && bound <= later && PcInv(t, pc, bound)
    ensures PcInv(u, pc, later)
  {
    if pc.Doing? && pc.o.AWrite? {
      StandsLater(t, u, pc.o.decision);
    }
  }

  /** The parameters of a statement respect the retry bounds. */
  predicate Moderate(c: Change, bound: int) {
    c.SetRetryQueued? ==> c.count <= MAX_RETRIES && c.at <= bound
  }

  /** A step that runs statement `c` and moves process `p` on. */
  lemma SqlKeepsInv(s: State, c: Change, p: nat, pc: Pc)
    requires Inv(s) && Moderate(c, s.lastFailure + 20)
    requires PcInv(s.table, pc, s.lastFailure + 20)
    ensures Inv(Go(Sql(s, c), p, pc))
  {
    hide TableInv, Extends, PcInv, GatesInv;
    var u := Sql(s, c).table;
    ChangeKeepsInv(s.table, c);
    forall q | q in s.procs
      ensures PcInv(u, s.procs[q], s.lastFailure + 20)
    {
      PcLater(s.table, u, s.procs[q], s.lastFailure + 20, s.lastFailure + 20);
    }
    PcLater(s.table, u, pc, s.lastFailure + 20, s.lastFailure + 20);
    ModerateRows(s.table.rows, c, s.lastFailure + 20);
  }

  lemma ModerateRows(rows: seq<Row>, c: Change, bound: int)
    requires RetryRows(rows, bound) && Moderate(c, bound)
    ensures RetryRows(Apply(rows, c), bound)
  {
  }

  /** A step that moves process `p` on and leaves the table alone. */
  lemma GoKeepsInv(s: State, t: State, p: nat, pc: Pc)
    requires Inv(s) && PcInv(s.table, pc, s.lastFailure + 20)
    requires t == s.(pushCh := t.pushCh, inChannel := t.inChannel, procs := s.procs[p := pc])
    ensures Inv(t)
  {
  }

  lemma WriteStep(s: State, p: nat, d: Decision)
    requires Inv(s) && Stands(s.table, Numbered(s.table, d))
    ensures Inv(Go(s.(table := Write(s.table, Numbered(s.table, d))), p, Returned))
  {
    hide TableInv, Extends, Stands, GatesInv;
    var bound := s.lastFailure + 20;
    var u := Write(s.table, Numbered(s.table, d));
    WriteKeepsInv(s.table, Numbered(s.table, d));
    forall q | q in s.procs
      ensures PcInv(u, s.procs[q], bound)
    {
      PcLater(s.table, u, s.procs[q], bound, bound);
    }
    WriteKeepsRetries(s.table, Numbered(s.table, d), bound);
  }

  lemma WriteKeepsRetries(t: Table, d: Decision, bound: int)
    requires RetryRows(t.rows, bound) && Stands(t, d)
    ensures RetryRows(Write(t, d).rows, bound)
  {
  }

  lemma ProduceKeepsInv(s: State, p: nat, q: Producer)
    requires Inv(s)
    ensures Inv(Produce(s, p, q))
  {
    hide Inv, Apply, ImagesOf;
    var t := Produce(s, p, q);
    if q.QSetQueued? && q.imgs != [] {
      SqlKeepsInv(s, SetStatus(q.imgs[0].url, Queued, ""), p, t.procs[p]);
    } else {
      GoKeepsInv(s, t, p, t.procs[p]);
    }
  }

  lemma WorkKeepsInv(s: State, p: nat, w: Worker)
    requires Inv(s) && CanAdvance(s, Working(w)) && PcInv(s.table, Working(w), s.lastFailure + 20)
    ensures Inv(Work(s, p, w))
  {
    hide Inv, Apply, Lookup, RetriesOf;
    var t := Work(s, p, w);
    var pc := t.procs[p];
    match w {
      case WSetPaused(img) => SqlKeepsInv(s, SetStatus(img.url, Queued, "paused"), p, pc);
      case WSetCancelled(img) => SqlKeepsInv(s, SetStatus(img.url, Queued, "context cancelled"), p, pc);
      case WSetUploading(img) => SqlKeepsInv(s, SetStatus(img.url, Uploading, ""), p, pc);
      case WSetAborted(img) => SqlKeepsInv(s, SetStatus(img.url, Queued, "context cancelled"), p, pc);
      case WSetRetry(img, attempt, at) =>
        SqlKeepsInv(s, SetRetryQueued(img.url, attempt, at, "transfer failed"), p, pc);
      case WSetFailed(img) => SqlKeepsInv(s, SetStatus(img.url, Failed, "transfer failed"), p, pc);
      case WSetDone(img) => SqlKeepsInv(s, SetStatus(img.url, Done, ""), p, pc);
      case WLookup(img) =>
        RetriesBounded(s, img.filename);
        GoKeepsInv(s, t, p, pc);
      case WHandleFailure(img, retries) =>
        if retries < MAX_RETRIES {
          FailureKeepsInv(s, p, pc);
        } else {
          GoKeepsInv(s, t, p, pc);
        }
      case _ => GoKeepsInv(s, t, p, pc);
    }
  }

  lemma RetriesBounded(s: State, filename: string)
    requires Inv(s)
    ensures RetriesOf(s.table.rows, filename) <= MAX_RETRIES
  {
  }

  /** Recording a failure moves the bound on retry times on, never back. */
  lemma FailureKeepsInv(s: State, p: nat, pc: Pc)
    requires Inv(s) && PcInv(s.table, pc, s.now + 20)
    ensures Inv(Go(s.(lastFailure := s.now), p, pc))
  {
    hide TableInv, Stands, GatesInv;
  }

  lemma DoKeepsInv(s: State, p: nat, o: Other)
    requires Inv(s) && PcInv(s.table, Doing(o), s.lastFailure + 20)
    ensures Inv(Do(s, p, o))
  {
    hide Inv, Apply, Write, Decide;
    var t := Do(s, p, o);
    match o {
      case CReset => SqlKeepsInv(s, ResetQueued, p, t.procs[p]);
      case CSetDiscovered(img) => SqlKeepsInv(s, SetStatus(img.url, Discovered, ""), p, t.procs[p]);
      case AFind(sighting) =>
        DecisionStands(s.table, sighting);
        NumberedStands(s.table, sighting);
        GoKeepsInv(s, t, p, t.procs[p]);
      case AWrite(d) => WriteStep(s, p, d);
      case _ => GoKeepsInv(s, t, p, t.procs[p]);
    }
  }

  lemma NumberedStands(t: Table, s: Sighting)
    ensures Stands(t, Numbered(t, Decide(t, s)))
  {
  }

  lemma StepKeepsInv(s: State, a: Action)
    requires Inv(s) && Enabled(s, a)
    ensures Inv(Next(s, a))
  {
    hide TableInv, RetryRows, Produce, Work, Do, Apply, Stands;
    match a {
      case Advance(p) =>
        match s.procs[p] {
          case Pushing(q) => ProduceKeepsInv(s, p, q);
          case Working(w) => WorkKeepsInv(s, p, w);
          case Doing(o) => DoKeepsInv(s, p, o);
        }
      case Execute(c) => ExecuteKeepsInv(s, c);
      case _ =>
    }
  }

  lemma ExecuteKeepsInv(s: State, c: Change)
    requires Inv(s) && Moderate(c, s.lastFailure + 20)
    ensures Inv(Sql(s, c))
  {
    hide TableInv, Extends, PcInv, GatesInv;
    ChangeKeepsInv(s.table, c);
    forall q | q in s.procs
      ensures PcInv(Sql(s, c).table, s.procs[q], s.lastFailure + 20)
    {
      PcLater(s.table, Sql(s, c).table, s.procs[q], s.lastFailure + 20, s.lastFailure + 20);
    }
    ModerateRows(s.table.rows, c, s.lastFailure + 20);
  }

  lemma {:induction false} RunKeepsInv(s: State, actions: seq<Action>)
    requires Inv(s) && IsRun(s, actions)
    ensures Inv(After(s, actions))
    decreases |actions|
  {
    hide Inv, Next, Enabled;
    if actions != [] {
      StepKeepsInv(s, actions[0]);
      RunKeepsInv(Next(s, actions[0]), actions[1..]);
    }
  }

  /** In every interleaving both keys stay unique, finished rows have no retry time, no
      row ever has more than three retries, a queued row is never in both of the
      scheduler's lists, and 20 seconds after the last failure every queued row is in
      one of them. */
  lemma QueueIsCovered(s: State, actions: seq<Action>, i: nat)
    requires IsInitial(s) && IsRun(s, actions) && i < |After(s, actions).table.rows|
    ensures var t := After(s, actions);
            var r := t.table.rows[i];
            && TableInv(t.table)
            && r.retryCount <= MAX_RETRIES
            && !(IsFresh(r) && IsReady(r, t.now))
            && (r.status == Queued && t.now >= t.lastFailure + 20 ==> IsFresh(r) || IsReady(r, t.now))
  {
    hide After, IsRun;
    assert Inv(s);
    RunKeepsInv(s, actions);
  }

  // ---- Waiting for the gate ----

  /** The gate a process waits for. */
  function GateOf(pc: Pc): Option<nat> {
    match pc
    case Pushing(SWait(g)) => Some(g)
    case Working(WWait(g)) => Some(g)
    case Working(WRewait(_, g)) => Some(g)
    case _ => None
  }

  /** Every gate that a process waits for has been made. */
  ghost predicate Waits(s: State) {
    forall p :: p in s.procs && GateOf(s.procs[p]).Some? ==> GateOf(s.procs[p]).value < |s.gates.closed|
  }

  lemma StepKeepsWaits(s: State, a: Action)
    requires Waits(s) && GatesInv(s.gates) && Enabled(s, a)
    ensures Waits(Next(s, a))
  {
    hide Produce, Work, Do;
    if a.Advance? {
      match s.procs[a.p] {
        case Pushing(q) => ProduceKeepsWaits(s, a.p, q);
        case Working(w) => WorkKeepsWaits(s, a.p, w);
        case Doing(o) => DoKeepsWaits(s, a.p, o);
      }
    }
  }

  lemma ProduceKeepsWaits(s: State, p: nat, q: Producer)
    requires Waits(s) && GatesInv(s.gates)
    ensures Waits(Produce(s, p, q))
  {
    hide Apply, ImagesOf;
  }

  lemma WorkKeepsWaits(s: State, p: nat, w: Worker)
    requires Waits(s) && GatesInv(s.gates) && CanAdvance(s, Working(w))
    ensures Waits(Work(s, p, w))
  {
    hide Apply, RetriesOf, RetryBackoff;
  }

  lemma DoKeepsWaits(s: State, p: nat, o: Other)
    requires Waits(s)
    ensures Waits(Do(s, p, o))
  {
    hide Apply, Decide, Write;
  }

  lemma InvGates(s: State)
    requires Inv(s)
    ensures GatesInv(s.gates)
  {
  }

  lemma {:induction false} RunKeepsWaits(s: State, actions: seq<Action>)
    requires Inv(s) && Waits(s) && IsRun(s, actions)
    ensures Inv(After(s, actions)) && Waits(After(s, actions))
    decreases |actions|
  {
    hide Inv, Waits, Next, Enabled;
    if actions != [] {
      StepKeepsInv(s, actions[0]);
      InvGates(s);
      StepKeepsWaits(s, actions[0]);
      RunKeepsWaits(Next(s, actions[0]), actions[1..]);
    }
  }

  /** In every interleaving a process that waits for a gate can go on, or waits for the
      current gate while the pipeline is paused; and after a Resume it can go on. */
  lemma NoWaiterIsLost(s: State, actions: seq<Action>, p: nat)
    requires IsInitial(s) && IsRun(s, actions)
    requires p in After(s, actions).procs && GateOf(After(s, actions).procs[p]).Some?
    ensures var t := After(s, actions);
            var pc := t.procs[p];
            && (CanAdvance(t, pc) || (GateOf(pc).value == t.gates.current && t.gates.paused))
            && Enabled(t, ResumeAll) && Next(t, ResumeAll).procs == t.procs && CanAdvance(Next(t, ResumeAll), pc)
  {
    hide After, IsRun;
    assert Inv(s) && Waits(s);
    RunKeepsWaits(s, actions);
  }

  // ---- Rows that are uploading ----

  /** The URL a worker is uploading: between its uploading write and its final write. */
  function InFlight(pc: Pc): Option<string> {
    match pc
    case Working(WContext(img)) => Some(img.url)
    case Working(WSetAborted(img)) => Some(img.url)
    case Working(WLookup(img)) => Some(img.url)
    case Working(WTransfer(img, _)) => Some(img.url)
    case Working(WHandleFailure(img, _)) => Some(img.url)
    case Working(WSetRetry(img, _, _)) => Some(img.url)
    case Working(WSetFailed(img)) => Some(img.url)
    case Working(WSetDone(img)) => Some(img.url)
    case _ => None
  }

  ghost predicate Flying(procs: map<nat, Pc>, url: string) {
    exists p :: p in procs && InFlight(procs[p]) == Some(url)
  }

  ghost predicate RowsFlying(rows: seq<Row>, procs: map<nat, Pc>) {
    forall i :: 0 <= i < |rows| ==> rows[i].status == Uploading ==> Flying(procs, rows[i].url)
  }

  /** A row is uploading only while some worker is uploading it. */
  ghost predicate FlightInv(s: State) {
    RowsFlying(s.table.rows, s.procs)
  }

  /** The step gives an uploading row a URL that no worker is uploading: a sighting of
      the row's file name under another URL is written while the upload is going on. */
  ghost predicate Strands(s: State, a: Action) {
    && a.Advance? && a.p in s.procs
    && match s.procs[a.p]
       case Doing(AWrite(Rebind(row, url))) =>
         && !Collides(s.table, Rebind(row, url))
         && !Flying(s.procs, url)
         && exists i :: 0 <= i < |s.table.rows| && s.table.rows[i].id == row.id && s.table.rows[i].status == Uploading
       case _ => false
  }

  /** Moving `p` to a place where it uploads what it uploaded before changes nothing. */
  lemma SameFlight(procs: map<nat, Pc>, p: nat, pc: Pc)
    requires InFlight(pc) == if p in procs then InFlight(procs[p]) else None
    ensures forall url :: Flying(procs[p := pc], url) == Flying(procs, url)
  {
    hide InFlight;
    var after := procs[p := pc];
    forall url
      ensures Flying(after, url) == Flying(procs, url)
    {
      if q :| q in procs && InFlight(procs[q]) == Some(url) {
        assert q in after && InFlight(after[q]) == Some(url);
      }
    }
  }

  /** A worker that takes off or lands changes the flights of its own URL only. */
  lemma OtherFlights(procs: map<nat, Pc>, p: nat, pc: Pc, url: string)
    requires p in procs && (InFlight(procs[p]) == Some(url) || InFlight(procs[p]).None?)
    requires InFlight(pc) == Some(url) || InFlight(pc).None?
    ensures forall u :: u != url ==> Flying(procs[p := pc], u) == Flying(procs, u)
    ensures InFlight(pc) == Some(url) ==> Flying(procs[p := pc], url)
  {
    hide InFlight;
    var after := procs[p := pc];
    assert p in after && after[p] == pc;
    forall u | u != url
      ensures Flying(after, u) == Flying(procs, u)
    {
      if q :| q in procs && InFlight(procs[q]) == Some(u) {
        assert q in after && InFlight(after[q]) == Some(u);
      }
    }
  }

  /** A statement that starts no upload, on a step that ends none. */
  lemma QuietSql(s: State, c: Change, p: nat, pc: Pc)
    requires FlightInv(s) && (c.SetStatus? ==> c.status != Uploading)
    requires InFlight(pc) == if p in s.procs then InFlight(s.procs[p]) else None
    ensures FlightInv(Go(Sql(s, c), p, pc))
  {
    hide InFlight, Flying;
    SameFlight(s.procs, p, pc);
  }

  /** The uploading write, and the writes that end an upload. */
  lemma FlightSql(s: State, c: Change, p: nat, pc: Pc, url: string)
    requires FlightInv(s) && p in s.procs
    requires (c.SetStatus? || c.SetRetryQueued?) && c.url == url
    requires if InFlight(s.procs[p]).None? then InFlight(pc) == Some(url)
             else InFlight(s.procs[p]) == Some(url) && InFlight(pc).None? && (c.SetStatus? ==> c.status != Uploading)
    ensures FlightInv(Go(Sql(s, c), p, pc))
  {
    hide InFlight, Flying;
    OtherFlights(s.procs, p, pc, url);
  }

  lemma QuietGo(s: State, t: State, p: nat, pc: Pc)
    requires FlightInv(s) && t.table == s.table && t.procs == s.procs[p := pc]
    requires InFlight(pc) == if p in s.procs then InFlight(s.procs[p]) else None
    ensures FlightInv(t)
  {
    hide InFlight, Flying;
    SameFlight(s.procs, p, pc);
  }

  lemma ProduceKeepsFlight(s: State, p: nat, q: Producer)
    requires FlightInv(s) && p in s.procs && s.procs[p] == Pushing(q)
    ensures FlightInv(Produce(s, p, q))
  {
    hide FlightInv, Apply, ImagesOf;
    var t := Produce(s, p, q);
    if q.QSetQueued? && q.imgs != [] {
      QuietSql(s, SetStatus(q.imgs[0].url, Queued, ""), p, t.procs[p]);
    } else {
      QuietGo(s, t, p, t.procs[p]);
    }
  }

  lemma WorkKeepsFlight(s: State, p: nat, w: Worker)
    requires FlightInv(s) && p in s.procs && s.procs[p] == Working(w) && CanAdvance(s, Working(w))
    ensures FlightInv(Work(s, p, w))
  {
    hide FlightInv, Apply, RetriesOf;
    var t := Work(s, p, w);
    var pc := t.procs[p];
    match w {
      case WSetPaused(img) => QuietSql(s, SetStatus(img.url, Queued, "paused"), p, pc);
      case WSetCancelled(img) => QuietSql(s, SetStatus(img.url, Queued, "context cancelled"), p, pc);
      case WSetUploading(img) => FlightSql(s, SetStatus(img.url, Uploading, ""), p, pc, img.url);
      case WSetAborted(img) => FlightSql(s, SetStatus(img.url, Queued, "context cancelled"), p, pc, img.url);
      case WSetRetry(img, attempt, at) =>
        FlightSql(s, SetRetryQueued(img.url, attempt, at, "transfer failed"), p, pc, img.url);
      case WSetFailed(img) => FlightSql(s, SetStatus(img.url, Failed, "transfer failed"), p, pc, img.url);
      case WSetDone(img) => FlightSql(s, SetStatus(img.url, Done, ""), p, pc, img.url);
      case _ => QuietGo(s, t, p, pc);
    }
  }

  lemma WriteFlightIff(s: State, p: nat, d: Decision)
    requires FlightInv(s) && TableInv(s.table) && Stands(s.table, Numbered(s.table, d))
    requires p in s.procs && s.procs[p] == Doing(AWrite(d))
    ensures FlightInv(Do(s, p, AWrite(d))) <==> !Strands(s, Advance(p))
  {
    hide Stands, TableInv, InFlight, Flying;
    var e := Numbered(s.table, d);
    var t := Do(s, p, AWrite(d));
    SameFlight(s.procs, p, Returned) by { assert InFlight(Doing(AWrite(d))) == InFlight(Returned) by { NoFlight(d); } }
    if !Collides(s.table, e) && d.Rebind? {
      var rows, u := s.table.rows, t.table.rows;
      assert forall i :: 0 <= i < |rows| && rows[i].id == d.row.id ==>
               u[i].url == d.url && u[i].status == rows[i].status;
      assert forall i :: 0 <= i < |rows| && rows[i].id != d.row.id ==> u[i] == rows[i];
    } else if d.Insert? {
      assert e.row.status == Discovered by { InsertsDiscovered(s.table, e); }
    }
  }

  lemma NoFlight(d: Decision)
    ensures InFlight(Doing(AWrite(d))).None? && InFlight(Returned).None?
  {
  }

  lemma InsertsDiscovered(t: Table, d: Decision)
    requires d.Insert? && Stands(t, d)
    ensures d.row.status == Discovered
  {
  }

  /** Exactly one kind of step ends with an uploading row that nobody is uploading. */
  lemma StepKeepsFlightIff(s: State, a: Action)
    requires Inv(s) && FlightInv(s) && Enabled(s, a)
    ensures FlightInv(Next(s, a)) <==> !Strands(s, a)
  {
    hide TableInv, RetryRows, FlightInv, Produce, Work, Do, Apply, Stands, Collides, Flying;
    match a {
      case Advance(p) =>
        match s.procs[p] {
          case Pushing(q) => ProduceKeepsFlight(s, p, q);
          case Working(w) => WorkKeepsFlight(s, p, w);
          case Doing(o) => DoFlightIff(s, p, o);
        }
      case Spawn(p, pc) => QuietGo(s, Next(s, a), p, pc);
      case Fail(p) => QuietGo(s, Next(s, a), p, Next(s, a).procs[p]);
      case Succeed(p) => QuietGo(s, Next(s, a), p, Next(s, a).procs[p]);
      case Stop(p) => QuietGo(s, Next(s, a), p, Next(s, a).procs[p]);
      case Execute(c) => QuietExecute(s, c);
      case _ => SameTable(s, Next(s, a));
    }
  }

  lemma SameTable(s: State, t: State)
    requires FlightInv(s) && t.table == s.table && t.procs == s.procs
    ensures FlightInv(t)
  {
  }

  lemma QuietExecute(s: State, c: Change)
    requires FlightInv(s) && FromWeb(c)
    ensures FlightInv(Sql(s, c))
  {
    hide Flying;
  }

  lemma DoFlightIff(s: State, p: nat, o: Other)
    requires Inv(s) && FlightInv(s) && p in s.procs && s.procs[p] == Doing(o)
    ensures FlightInv(Do(s, p, o)) <==> !Strands(s, Advance(p))
  {
    hide FlightInv, TableInv, RetryRows, Apply, Write, Decide, Stands, Strands;
    var t := Do(s, p, o);
    var pc := t.procs[p];
    if o.AWrite? {
      WriteFlightIff(s, p, o.decision);
    } else {
      assert !Strands(s, Advance(p)) by { StrandsOnlyWrites(s, p); }
      match o {
        case CReset => QuietSql(s, ResetQueued, p, pc);
        case CSetDiscovered(img) => QuietSql(s, SetStatus(img.url, Discovered, ""), p, pc);
        case _ => QuietGo(s, t, p, pc);
      }
    }
  }

  lemma StrandsOnlyWrites(s: State, p: nat)
    requires p in s.procs && s.procs[p].Doing? && !s.procs[p].o.AWrite?
    ensures !Strands(s, Advance(p))
  {
  }

  ghost predicate NeverStrands(s: State, actions: seq<Action>)
    requires IsRun(s, actions)
    decreases |actions|
  {
    actions == [] || (!Strands(s, actions[0]) && NeverStrands(Next(s, actions[0]), actions[1..]))
  }

  lemma {:induction false} RunKeepsFlight(s: State, actions: seq<Action>)
    requires Inv(s) && FlightInv(s) && IsRun(s, actions) && NeverStrands(s, actions)
    ensures FlightInv(After(s, actions))
    decreases |actions|
  {
    hide Inv, FlightInv, Next, Enabled, Strands;
    if actions != [] {
      StepKeepsInv(s, actions[0]);
      StepKeepsFlightIff(s, actions[0]);
      RunKeepsFlight(Next(s, actions[0]), actions[1..]);
    }
  }

  /** As long as no row is given a new URL while it is uploading, a row is uploading only
      while some worker is between its uploading write and its final write. */
  lemma UploadingMeansInFlight(s: State, actions: seq<Action>)
    requires IsInitial(s) && IsRun(s, actions) && NeverStrands(s, actions)
    ensures FlightInv(After(s, actions))
  {
    hide After, IsRun, NeverStrands;
    assert Inv(s) && FlightInv(s);
    RunKeepsFlight(s, actions);
  }

  /** How a row is stranded: while worker `q` is about to record a finished upload, the
      discovery loop sees the file under a new URL. The worker's write then finds no
      row, and the row stays uploading with nobody uploading it. */
  lemma StrandedByRename(s: State, p: nat, q: nat, i: nat, url: string) returns (actions: seq<Action>, t: State)
    requires Inv(s) && p !in s.procs && q in s.procs && i < |s.table.rows|
    requires s.procs[q] == Working(WSetDone(Image(s.table.rows[i].filename, s.table.rows[i].url)))
    requires s.table.rows[i].status == Uploading
    requires forall r :: r in s.table.rows ==> r.url != url
    requires !Flying(s.procs, url)
    ensures Leads(s, actions, t) && |t.table.rows| == |s.table.rows|
    ensures t.table.rows[i].status == Uploading && !Flying(t.procs, t.table.rows[i].url)
  {
    hide Flying, Leads, Collides, Apply, Inv, Decide, Write, Next, Enabled;
    var row := s.table.rows[i];
    assert TableInv(s.table) by { InvTable(s); }
    var sighting := Sighting(row.filename, url, "", None, false);
    var d := Rebind(row, url);
    var s3 := Go(s.(table := Write(s.table, d)), p, Returned);
    t := Go(Sql(s3, SetStatus(row.url, Done, "")), q, Working(WGate));
    actions := [Spawn(p, Doing(AFind(sighting)))] + ([Advance(p)] + ([Advance(p)] + ([Advance(q)] + [])));
    assert Decide(s.table, sighting) == d by { RenameDecided(s.table, i, sighting); }
    LateWrite(s3, q, Image(row.filename, row.url), t);
    SightingThen(s, p, sighting, [Advance(q)] + [], t);
    StrandedRow(s.table, i, url);
    assert !Flying(t.procs, url) by { NobodyFlies(s, t, p, q, url); }
  }

  lemma InvTable(s: State)
    requires Inv(s)
    ensures TableInv(s.table)
  {
  }

  lemma RenameDecided(t: Table, i: nat, sighting: Sighting)
    requires TableInv(t) && i < |t.rows| && sighting.filename == t.rows[i].filename
    requires forall r :: r in t.rows ==> r.url != sighting.url
    ensures Decide(t, sighting) == Rebind(t.rows[i], sighting.url)
  {
    LookupUnique(t.rows, Filename(sighting.filename), i);
  }

  lemma LateWrite(s: State, q: nat, img: Image, t: State)
    requires q in s.procs && s.procs[q] == Working(WSetDone(img))
    requires t == Go(Sql(s, SetStatus(img.url, Done, "")), q, Working(WGate))
    ensures Leads(s, [Advance(q)] + [], t)
  {
    hide Leads, Apply;
    NoSteps(t);
    OneStep(s, Advance(q), [], t);
  }

  /** The rename, and then a write under the old URL. */
  lemma StrandedRow(t: Table, i: nat, url: string)
    requires TableInv(t) && i < |t.rows| && forall r :: r in t.rows ==> r.url != url
    ensures var row := t.rows[i];
            var after := Apply(Write(t, Rebind(row, url)).rows, SetStatus(row.url, Done, ""));
            |after| == |t.rows| && after[i] == row.(url := url)
  {
    assert t.rows[i] in t.rows;
  }

  /** A sighting that nothing interrupts, and then the rest of a run. */
  lemma SightingThen(s: State, p: nat, sighting: Sighting, rest: seq<Action>, t: State)
    requires p !in s.procs
    requires Leads(Go(s.(table := Write(s.table, Numbered(s.table, Decide(s.table, sighting)))), p, Returned), rest, t)
    ensures Leads(s, [Spawn(p, Doing(AFind(sighting)))] + ([Advance(p)] + ([Advance(p)] + rest)), t)
  {
    hide Leads, Decide, Write, Numbered;
    var d := Decide(s.table, sighting);
    var s1, s2 := Go(s, p, Doing(AFind(sighting))), Go(s, p, Doing(AWrite(d)));
    assert s1.procs[p := Doing(AWrite(d))] == s2.procs;
    assert s2.procs[p := Returned] == s.procs[p := Returned];
    OneStep(s2, Advance(p), rest, t);
    OneStep(s1, Advance(p), [Advance(p)] + rest, t);
    OneStep(s, Spawn(p, Doing(AFind(sighting))), [Advance(p)] + ([Advance(p)] + rest), t);
  }

  lemma NobodyFlies(s: State, t: State, p: nat, q: nat, url: string)
    requires !Flying(s.procs, url) && t.procs.Keys == s.procs.Keys + {p} && {p, q} <= t.procs.Keys
    requires InFlight(t.procs[p]).None? && InFlight(t.procs[q]).None?
    requires forall r :: r in s.procs && r != p && r != q ==> t.procs[r] == s.procs[r]
    ensures !Flying(t.procs, url)
  {
    hide InFlight;
  }
}
