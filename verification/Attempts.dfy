/** How many attempts an image gets before it is given up, and where it stands between
    them. */
module Attempts {
  import opened Bytes
  import opened ImageTable
  import opened Pipeline
  import opened Uploads

  // ---- Where an image stands ----

  function AtMost3(n: nat): nat {
    if n <= MAX_RETRIES then n else MAX_RETRIES
  }

  /** No worker has the image, which has failed `n` times: it is untried, waiting for its
      `n`-th retry, or given up. */
  predicate Standing(row: Row, n: nat) {
    if n == 0 then (row.status == Discovered || row.status == Queued) && row.retryCount == 0
    else if n <= MAX_RETRIES then row.status == Queued && row.retryCount == n && row.nextRetryAt.Some?
    else row.status == Failed && row.retryCount == MAX_RETRIES && row.nextRetryAt.None?
  }

  /** What the row carries into the attempt that follows `n` failures. */
  predicate Carried(row: Row, n: nat) {
    && row.retryCount == AtMost3(n)
    && (1 <= n <= MAX_RETRIES ==> row.nextRetryAt.Some?)
    && (n > MAX_RETRIES ==> row.nextRetryAt.None?)
  }

  /** A worker has the image, which has failed `n` times in all. */
  predicate Counts(w: Worker, row: Row, n: nat) {
    match w
    case WTransfer(_, retries) => retries == row.retryCount && Carried(row, n)
    case WHandleFailure(_, retries) => n >= 1 && retries == row.retryCount && Carried(row, n - 1)
    case WSetRetry(_, attempt, _) => 1 <= n <= MAX_RETRIES && attempt == n
    case WSetFailed(_) => n > MAX_RETRIES && row.retryCount == MAX_RETRIES
    case WSetDone(_) => false
    case _ => Carried(row, n)
  }

  ghost predicate OnlyFlight(procs: map<nat, Pc>, p: nat, url: string) {
    && p in procs && procs[p].Working? && InFlight(procs[p]) == Some(url)
    && forall q :: q in procs && q != p ==> InFlight(procs[q]) != Some(url)
  }

  /** The row and the processes agree with `n` failures so far. */
  ghost predicate Counted(row: Row, procs: map<nat, Pc>, n: nat) {
    && (row.status == Failed ==> n > MAX_RETRIES)
    && if Flying(procs, row.url) then exists p :: OnlyFlight(procs, p, row.url) && Counts(procs[p].w, row, n)
       else Standing(row, n)
  }

  /** One worker at a time has the image at row `i`, no attempt succeeds, and nobody else
      interferes: the row is not renamed, no statement of the web handlers or reset of
      the queue clears its count, and while no worker has it nobody but a worker that
      takes it writes its status, other than writing queued where it is not failed or
      discovered where it is untried. A worker that has it is not stopped by a cancelled
      context when the retries are used up. */
  ghost predicate Undisturbed(s: State, a: Action, i: nat) {
    && i < |s.table.rows|
    && var row := s.table.rows[i];
    match a
    case Succeed(p) => InTransfer(s, p) ==> s.procs[p].w.img.url != row.url
    case Execute(c) => !Selects(c, row)
    case Advance(p) => p in s.procs ==>
      (match s.procs[p]
       case Working(WSetUploading(img)) => img.url == row.url ==> !Flying(s.procs, row.url)
       case Working(WLookup(img)) => img.url == row.url ==> img.filename == row.filename
       case Working(WSetAborted(img)) => img.url == row.url ==> row.retryCount < MAX_RETRIES || row.nextRetryAt.Some?
       case Working(WSetPaused(img)) => img.url == row.url ==> MayQueue(s, row)
       case Working(WSetCancelled(img)) => img.url == row.url ==> MayQueue(s, row)
       case Pushing(QSetQueued(imgs)) => imgs != [] && imgs[0].url == row.url ==> MayQueue(s, row)
       case Doing(CSetDiscovered(img)) => img.url == row.url ==> Flying(s.procs, row.url) || row.retryCount == 0
       case Doing(CReset) => row.status != Queued
       case Doing(AWrite(d)) => d.Insert? || d.row.id != row.id || d.Backfill? || d.Leave?
       case _ => true)
    case _ => true
  }

  ghost predicate MayQueue(s: State, row: Row) {
    Flying(s.procs, row.url) || row.status != Failed
  }

  /** The failures a step adds for `url`. */
  function FailuresAt(s: State, a: Action, url: string): nat {
    if a.Fail? && InTransfer(s, a.p) && s.procs[a.p].w.img.url == url then 1 else 0
  }

  // ---- The kinds of step ----

  lemma UndisturbedHere(s: State, a: Action, i: nat)
    requires Undisturbed(s, a, i)
    ensures i < |s.table.rows|
  {
  }

  lemma TheOne(row: Row, procs: map<nat, Pc>, p: nat, n: nat)
    requires Counted(row, procs, n) && p in procs && InFlight(procs[p]) == Some(row.url)
    ensures OnlyFlight(procs, p, row.url) && Counts(procs[p].w, row, n)
    ensures row.status == Failed ==> n > MAX_RETRIES
  {
    hide InFlight, Counts;
  }

  /** What a status write on the row leaves alone when it is none of the verdicts. */
  predicate Kept(row: Row, after: Row) {
    && after.url == row.url && after.retryCount == row.retryCount && after.nextRetryAt == row.nextRetryAt
    && (after.status == Failed ==> row.status == Failed)
  }

  /** A step of a process that does not have the image before or after. */
  lemma Aside(row: Row, after: Row, procs: map<nat, Pc>, p: nat, pc: Pc, n: nat)
    requires Counted(row, procs, n)
    requires p in procs ==> InFlight(procs[p]) != Some(row.url)
    requires InFlight(pc) != Some(row.url)
    requires Kept(row, after)
    requires Flying(procs, row.url) || Standing(after, n)
    ensures Counted(after, procs[p := pc], n)
  {
    hide InFlight, Standing;
    var now := procs[p := pc];
    if q :| OnlyFlight(procs, q, row.url) && Counts(procs[q].w, row, n) {
      assert OnlyFlight(now, q, row.url) && now[q] == procs[q];
      assert Flying(now, row.url);
      assert Counts(now[q].w, after, n) by { KeptCounts(procs[q].w, row, after, n); }
    }
  }

  lemma KeptCounts(w: Worker, row: Row, after: Row, n: nat)
    requires Kept(row, after) && Counts(w, row, n)
    ensures Counts(w, after, n)
  {
  }

  /** A step of the one worker that has the image, or takes it. */
  lemma Onward(row: Row, after: Row, procs: map<nat, Pc>, p: nat, pc: Pc, n: nat)
    requires forall q :: q in procs && q != p ==> InFlight(procs[q]) != Some(row.url)
    requires after.url == row.url && (after.status == Failed ==> n > MAX_RETRIES)
    requires if InFlight(pc) == Some(row.url) then pc.Working? && Counts(pc.w, after, n) else Standing(after, n)
    ensures Counted(after, procs[p := pc], n)
  {
    hide InFlight, Counts, Standing;
    var now := procs[p := pc];
    if InFlight(pc) == Some(row.url) {
      assert OnlyFlight(now, p, row.url);
      assert InFlight(now[p]) == Some(row.url);
    }
  }

  lemma AtRest(row: Row, procs: map<nat, Pc>, n: nat)
    requires Counted(row, procs, n) && !Flying(procs, row.url)
    ensures Standing(row, n)
  {
  }

  /** Writing queued where the image is not failed, or discovered where it is untried,
      leaves it standing where it stood. */
  lemma HarmlessWrites(row: Row, n: nat, message: string)
    requires Standing(row, n)
    ensures row.status != Failed ==> Standing(Changed(SetStatus(row.url, Queued, message), row), n)
    ensures row.retryCount == 0 ==> Standing(Changed(SetStatus(row.url, Discovered, message), row), n)
  {
  }

  // ---- The processes ----

  lemma ProduceCounts(s: State, p: nat, q: Producer, i: nat, n: nat)
    requires i < |s.table.rows| && Counted(s.table.rows[i], s.procs, n)
    requires p in s.procs && s.procs[p] == Pushing(q) && Undisturbed(s, Advance(p), i)
    ensures Counted(Produce(s, p, q).table.rows[i], Produce(s, p, q).procs, n)
    ensures Produce(s, p, q).table.rows[i].url == s.table.rows[i].url
  {
    hide Counted, ImagesOf, Flying, Standing;
    var row, t := s.table.rows[i], Produce(s, p, q);
    if !Flying(s.procs, row.url) {
      AtRest(row, s.procs, n);
      HarmlessWrites(row, n, "");
    }
    Aside(row, t.table.rows[i], s.procs, p, t.procs[p], n);
  }

  /** The row after a step aside: nothing about the attempts has changed. */
  ghost predicate LeftAside(row: Row, after: Row, flying: bool, n: nat) {
    Kept(row, after) && (flying || Standing(after, n))
  }

  predicate TakesUp(w: Worker, url: string) {
    w.WSetUploading? && w.img.url == url
  }

  /** A worker that does not have the image and does not take it. */
  lemma WorkAsideProcs(s: State, p: nat, w: Worker, url: string)
    requires CanAdvance(s, Working(w)) && InFlight(Working(w)) != Some(url) && !TakesUp(w, url)
    ensures var t := Work(s, p, w);
            p in t.procs && InFlight(t.procs[p]) != Some(url) && t.procs == s.procs[p := t.procs[p]]
  {
    hide Apply, RetriesOf, RetryBackoff, IsClosed;
  }

  lemma WorkAsideRow(s: State, p: nat, w: Worker, i: nat, flying: bool, n: nat)
    requires i < |s.table.rows| && CanAdvance(s, Working(w))
    requires InFlight(Working(w)) != Some(s.table.rows[i].url) && !TakesUp(w, s.table.rows[i].url)
    requires flying || Standing(s.table.rows[i], n)
    requires (w.WSetPaused? || w.WSetCancelled?) && w.img.url == s.table.rows[i].url ==>
               flying || s.table.rows[i].status != Failed
    ensures LeftAside(s.table.rows[i], Work(s, p, w).table.rows[i], flying, n)
  {
    hide RetriesOf, Standing, RetryBackoff, IsClosed;
    var row := s.table.rows[i];
    if !flying {
      HarmlessWrites(row, n, "paused");
      HarmlessWrites(row, n, "context cancelled");
    }
  }

  lemma WorkMayQueue(s: State, p: nat, w: Worker, i: nat)
    requires p in s.procs && s.procs[p] == Working(w) && Undisturbed(s, Advance(p), i)
    ensures (w.WSetPaused? || w.WSetCancelled?) && w.img.url == s.table.rows[i].url ==>
              Flying(s.procs, s.table.rows[i].url) || s.table.rows[i].status != Failed
    ensures TakesUp(w, s.table.rows[i].url) ==> !Flying(s.procs, s.table.rows[i].url)
    ensures w.WLookup? && w.img.url == s.table.rows[i].url ==> w.img.filename == s.table.rows[i].filename
    ensures w.WSetAborted? && w.img.url == s.table.rows[i].url ==>
              s.table.rows[i].retryCount < MAX_RETRIES || s.table.rows[i].nextRetryAt.Some?
  {
    hide Flying;
  }

  predicate Lands(w: Worker) {
    w.WSetAborted? || w.WSetRetry? || w.WSetFailed? || w.WSetDone?
  }

  /** The worker that has the image, on its way... */
  lemma WorkFlies(s: State, p: nat, w: Worker, i: nat, n: nat)
    requires i < |s.table.rows| && CanAdvance(s, Working(w)) && !Lands(w)
    requires InFlight(Working(w)) == Some(s.table.rows[i].url) && Counts(w, s.table.rows[i], n)
    requires w.WLookup? ==> RetriesOf(s.table.rows, w.img.filename) == s.table.rows[i].retryCount
    ensures var t := Work(s, p, w);
            && t.table == s.table && p in t.procs && t.procs == s.procs[p := t.procs[p]]
            && InFlight(t.procs[p]) == Some(s.table.rows[i].url)
            && t.procs[p].Working? && Counts(t.procs[p].w, s.table.rows[i], n)
  {
    hide RetriesOf, RetryBackoff, Apply;
  }

  /** ...and with its verdict. */
  lemma WorkLands(s: State, p: nat, w: Worker, i: nat, n: nat)
    requires i < |s.table.rows| && Lands(w)
    requires InFlight(Working(w)) == Some(s.table.rows[i].url) && Counts(w, s.table.rows[i], n)
    requires w.WSetAborted? ==> s.table.rows[i].retryCount < MAX_RETRIES || s.table.rows[i].nextRetryAt.Some?
    ensures var t := Work(s, p, w);
            && t.procs == s.procs[p := Working(WGate)]
            && t.table.rows[i].url == s.table.rows[i].url && Standing(t.table.rows[i], n)
  {
    hide RetriesOf, RetryBackoff;
  }

  lemma LookupFinds(rows: seq<Row>, filename: string, i: nat)
    requires UniqueKeys(rows) && i < |rows| && rows[i].filename == filename
    ensures RetriesOf(rows, filename) == rows[i].retryCount
  {
    LookupUnique(rows, Filename(filename), i);
  }

  /** A worker takes the image. */
  lemma WorkTakes(s: State, p: nat, img: Image, i: nat, n: nat)
    requires i < |s.table.rows| && img.url == s.table.rows[i].url && Standing(s.table.rows[i], n)
    ensures var t := Work(s, p, WSetUploading(img));
            var after := t.table.rows[i];
            && after.url == img.url && after.status != Failed
            && t.procs == s.procs[p := Working(WContext(img))]
            && InFlight(t.procs[p]) == Some(img.url) && Counts(WContext(img), after, n)
  {
  }

  lemma WorkCounts(s: State, p: nat, w: Worker, i: nat, n: nat)
    requires UniqueKeys(s.table.rows) && i < |s.table.rows| && Counted(s.table.rows[i], s.procs, n)
    requires p in s.procs && s.procs[p] == Working(w) && CanAdvance(s, Working(w))
    requires Undisturbed(s, Advance(p), i)
    ensures Counted(Work(s, p, w).table.rows[i], Work(s, p, w).procs, n)
    ensures Work(s, p, w).table.rows[i].url == s.table.rows[i].url
  {
    hide Counted, Work, UniqueKeys, Standing, Counts, Undisturbed, Flying, InFlight, CanAdvance, RetriesOf;
    var row, t := s.table.rows[i], Work(s, p, w);
    WorkMayQueue(s, p, w, i);
    if !Flying(s.procs, row.url) {
      AtRest(row, s.procs, n);
    }
    if InFlight(Working(w)) == Some(row.url) {
      TheOne(row, s.procs, p, n);
      InFlightUrl(w);
      if Lands(w) {
        WorkLands(s, p, w, i, n);
        StandingFailed(t.table.rows[i], n);
      } else {
        if w.WLookup? {
          LookupFinds(s.table.rows, w.img.filename, i);
        }
        WorkFlies(s, p, w, i, n);
      }
      Onward(row, t.table.rows[i], s.procs, p, t.procs[p], n);
    } else if TakesUp(w, row.url) {
      WorkTakes(s, p, w.img, i, n);
      assert forall q :: q in s.procs ==> InFlight(s.procs[q]) != Some(row.url) by { NobodyHas(s.procs, row.url); }
      Onward(row, t.table.rows[i], s.procs, p, t.procs[p], n);
    } else {
      WorkAsideProcs(s, p, w, row.url);
      WorkAsideRow(s, p, w, i, Flying(s.procs, row.url), n);
      Aside(row, t.table.rows[i], s.procs, p, t.procs[p], n);
    }
  }

  lemma InFlightUrl(w: Worker)
    ensures w.WLookup? || w.WSetAborted? ==> InFlight(Working(w)) == Some(w.img.url)
    ensures InFlight(Working(WGate)).None?
  {
  }

  lemma StandingFailed(row: Row, n: nat)
    requires Standing(row, n)
    ensures row.status == Failed <==> n > MAX_RETRIES
  {
  }

  lemma NobodyHas(procs: map<nat, Pc>, url: string)
    requires !Flying(procs, url)
    ensures forall q :: q in procs ==> InFlight(procs[q]) != Some(url)
  {
    hide InFlight;
  }

  lemma DoCounts(s: State, p: nat, o: Other, i: nat, n: nat)
    requires TableInv(s.table) && PcInv(s.table, Doing(o), s.lastFailure + 20)
    requires i < |s.table.rows| && Counted(s.table.rows[i], s.procs, n)
    requires p in s.procs && s.procs[p] == Doing(o) && Undisturbed(s, Advance(p), i)
    ensures i < |Do(s, p, o).table.rows| && Counted(Do(s, p, o).table.rows[i], Do(s, p, o).procs, n)
    ensures Do(s, p, o).table.rows[i].url == s.table.rows[i].url
  {
    hide Counted, Collides, Decide, TableInv, Stands, Flying, Standing;
    var row, t := s.table.rows[i], Do(s, p, o);
    if !Flying(s.procs, row.url) {
      AtRest(row, s.procs, n);
      HarmlessWrites(row, n, "");
      assert Standing(t.table.rows[i], n) by { SameStanding(row, t.table.rows[i], n); }
    }
    Aside(row, t.table.rows[i], s.procs, p, t.procs[p], n);
  }

  lemma SameStanding(row: Row, after: Row, n: nat)
    requires Standing(row, n)
    ensures after.status == row.status && after.retryCount == row.retryCount && after.nextRetryAt == row.nextRetryAt
            ==> Standing(after, n)
    ensures row.retryCount == 0 && after.status == Discovered && after.retryCount == 0 ==> Standing(after, n)
  {
  }

  lemma AdvanceCounts(s: State, p: nat, i: nat, n: nat)
    requires Inv(s) && Enabled(s, Advance(p)) && Undisturbed(s, Advance(p), i)
    requires Counted(s.table.rows[i], s.procs, n)
    ensures var t := Next(s, Advance(p));
            && i < |t.table.rows| && t.table.rows[i].url == s.table.rows[i].url
            && Counted(t.table.rows[i], t.procs, n)
  {
    hide Counted, Produce, Work, Do, TableInv, RetryRows, PcInv, Undisturbed;
    UndisturbedHere(s, Advance(p), i);
    match s.procs[p] {
      case Pushing(q) => ProduceCounts(s, p, q, i, n);
      case Working(w) =>
        assert UniqueKeys(s.table.rows) by { Uniquely(s.table); }
        WorkCounts(s, p, w, i, n);
      case Doing(o) => DoCounts(s, p, o, i, n);
    }
  }

  lemma FailCounts(s: State, p: nat, i: nat, n: nat)
    requires InTransfer(s, p) && i < |s.table.rows| && Counted(s.table.rows[i], s.procs, n)
    ensures Counted(s.table.rows[i], Next(s, Fail(p)).procs, n + FailuresAt(s, Fail(p), s.table.rows[i].url))
  {
    hide Counted, Standing, Flying;
    var row, t := s.table.rows[i], Next(s, Fail(p));
    if s.procs[p].w.img.url == row.url {
      TheOne(row, s.procs, p, n);
      Onward(row, row, s.procs, p, t.procs[p], n + 1);
    } else {
      SameRowAside(row, s.procs, p, t.procs[p], n);
    }
  }

  /** A step aside that leaves the row alone. */
  lemma SameRowAside(row: Row, procs: map<nat, Pc>, p: nat, pc: Pc, n: nat)
    requires Counted(row, procs, n)
    requires p in procs ==> InFlight(procs[p]) != Some(row.url)
    requires InFlight(pc) != Some(row.url)
    ensures Counted(row, procs[p := pc], n)
  {
    hide InFlight, Counted, Standing, Flying;
    if !Flying(procs, row.url) {
      AtRest(row, procs, n);
    }
    Aside(row, row, procs, p, pc, n);
  }

  lemma StepCounts(s: State, a: Action, i: nat, n: nat)
    requires Inv(s) && Enabled(s, a) && Undisturbed(s, a, i)
    requires Counted(s.table.rows[i], s.procs, n)
    ensures var row := s.table.rows[i];
            && i < |Next(s, a).table.rows|
            && Next(s, a).table.rows[i].url == row.url
            && Counted(Next(s, a).table.rows[i], Next(s, a).procs, n + FailuresAt(s, a, row.url))
  {
    hide Counted, Advanced, Inv;
    var row, t := s.table.rows[i], Next(s, a);
    match a {
      case Advance(p) => AdvanceCounts(s, p, i, n);
      case Fail(p) => FailCounts(s, p, i, n);
      case Succeed(p) => SameRowAside(row, s.procs, p, t.procs[p], n);
      case Stop(p) => SameRowAside(row, s.procs, p, t.procs[p], n);
      case Spawn(p, pc) => SameRowAside(row, s.procs, p, pc, n);
      case _ =>
    }
  }

  // ---- The fourth failure ----

  /** The worker is about to give the image up. */
  predicate GivesUp(pc: Pc, url: string) {
    pc.Working? && (pc.w.WHandleFailure? || pc.w.WSetFailed?) && pc.w.img.url == url
  }

  /** Until the image is first failed: at most three failures, or a fourth that is just
      being recorded. */
  ghost predicate Early(procs: map<nat, Pc>, url: string, n: nat) {
    n <= MAX_RETRIES || (n == MAX_RETRIES + 1 && exists p :: p in procs && GivesUp(procs[p], url))
  }

  lemma StepEarly(s: State, a: Action, i: nat, n: nat)
    requires Inv(s) && Enabled(s, a) && Undisturbed(s, a, i)
    requires Counted(s.table.rows[i], s.procs, n) && Early(s.procs, s.table.rows[i].url, n)
    ensures i < |Next(s, a).table.rows|
    ensures var url := s.table.rows[i].url;
            var m := n + FailuresAt(s, a, url);
            && m <= MAX_RETRIES + 1
            && (Next(s, a).table.rows[i].status != Failed ==> Early(Next(s, a).procs, url, m))
  {
    hide Inv, Counted, Produce, Work, Do, Undisturbed;
    UndisturbedHere(s, a, i);
    var url := s.table.rows[i].url;
    StepCounts(s, a, i, n);
    if n == MAX_RETRIES + 1 {
      var p :| p in s.procs && GivesUp(s.procs[p], url);
      TheOne(s.table.rows[i], s.procs, p, n);
      assert FailuresAt(s, a, url) == 0;
      if a == Advance(p) {
        GivingUp(s, p, i, n);
      } else {
        OthersMove(s, a, p);
      }
    } else if n == MAX_RETRIES && FailuresAt(s, a, url) == 1 {
      assert a.p in Next(s, a).procs && GivesUp(Next(s, a).procs[a.p], url);
    }
  }

  lemma GivingUp(s: State, p: nat, i: nat, n: nat)
    requires p in s.procs && i < |s.table.rows| && GivesUp(s.procs[p], s.table.rows[i].url) && n > MAX_RETRIES
    requires Counts(s.procs[p].w, s.table.rows[i], n)
    ensures var t := Work(s, p, s.procs[p].w);
            p in t.procs && (GivesUp(t.procs[p], s.table.rows[i].url) || t.table.rows[i].status == Failed)
  {
    hide RetryBackoff;
  }

  lemma OthersMove(s: State, a: Action, p: nat)
    requires Enabled(s, a) && a != Advance(p) && p in s.procs && s.procs[p].Working?
    requires s.procs[p].w.WHandleFailure? || s.procs[p].w.WSetFailed?
    ensures p in Next(s, a).procs && Next(s, a).procs[p] == s.procs[p]
  {
    hide Produce, Work, Do;
    if a.Advance? {
      match s.procs[a.p] {
        case Pushing(q) => ProduceMovesOne(s, a.p, q);
        case Working(w) => WorkMovesOne(s, a.p, w);
        case Doing(o) => DoMovesOne(s, a.p, o);
      }
    }
  }

  // ---- Runs ----

  ghost predicate UndisturbedRun(s: State, actions: seq<Action>, i: nat)
    requires IsRun(s, actions)
    decreases |actions|
  {
    actions == [] || (Undisturbed(s, actions[0], i) && UndisturbedRun(Next(s, actions[0]), actions[1..], i))
  }

  ghost function Failures(s: State, actions: seq<Action>, url: string): nat
    requires IsRun(s, actions)
    decreases |actions|
  {
    if actions == [] then 0 else FailuresAt(s, actions[0], url) + Failures(Next(s, actions[0]), actions[1..], url)
  }

  lemma {:induction false} RunCounts(s: State, actions: seq<Action>, i: nat, n: nat)
    requires Inv(s) && IsRun(s, actions) && UndisturbedRun(s, actions, i)
    requires i < |s.table.rows| && Counted(s.table.rows[i], s.procs, n)
    ensures var t := After(s, actions);
            && i < |t.table.rows|
            && t.table.rows[i].url == s.table.rows[i].url
            && Counted(t.table.rows[i], t.procs, n + Failures(s, actions, s.table.rows[i].url))
    decreases |actions|
  {
    hide Inv, Counted, Next, Enabled, Undisturbed, FailuresAt;
    if actions != [] {
      StepKeepsInv(s, actions[0]);
      UndisturbedHere(s, actions[0], i);
      StepCounts(s, actions[0], i, n);
      RunCounts(Next(s, actions[0]), actions[1..], i, n + FailuresAt(s, actions[0], s.table.rows[i].url));
    }
  }

  /** An untried image that no worker has. */
  ghost predicate Untried(s: State, i: nat) {
    i < |s.table.rows| && Standing(s.table.rows[i], 0) && !Flying(s.procs, s.table.rows[i].url)
  }

  lemma UntriedCounts(s: State, i: nat)
    requires Untried(s, i)
    ensures Counted(s.table.rows[i], s.procs, 0)
  {
    hide Flying;
  }

  /** An image that fails every time, handled by one worker at a time and not interfered
      with, stands as follows after `n` failures whenever no worker has it: untried for
      n = 0; queued for its n-th retry, with a retry time, for n = 1, 2, 3; failed from
      the fourth failure on. It is never failed before that. */
  lemma FourAttempts(s: State, actions: seq<Action>, i: nat)
    requires Inv(s) && IsRun(s, actions) && UndisturbedRun(s, actions, i) && Untried(s, i)
    ensures var t := After(s, actions);
            var n := Failures(s, actions, s.table.rows[i].url);
            && i < |t.table.rows|
            && var row := t.table.rows[i];
            && row.url == s.table.rows[i].url
            && (row.status == Failed ==> n >= 4)
            && (!Flying(t.procs, row.url) ==>
                  && (row.status == Failed <==> n >= 4)
                  && (1 <= n <= 3 ==> row.status == Queued && row.retryCount == n && row.nextRetryAt.Some?)
                  && (n == 0 ==> row.retryCount == 0))
  {
    hide After, IsRun, UndisturbedRun, Failures, Flying, Inv, Counted;
    UntriedCounts(s, i);
    RunCounts(s, actions, i, 0);
    var t := After(s, actions);
    CountedSays(t.table.rows[i], t.procs, Failures(s, actions, s.table.rows[i].url));
  }

  lemma CountedSays(row: Row, procs: map<nat, Pc>, n: nat)
    requires Counted(row, procs, n)
    ensures row.status == Failed ==> n >= 4
    ensures !Flying(procs, row.url) ==> Standing(row, n)
  {
  }

  /** Before the last state of the run the image is not failed. */
  ghost predicate NotFailedYet(s: State, actions: seq<Action>, i: nat)
    requires IsRun(s, actions)
    decreases |actions|
  {
    actions == [] ||
    (i < |s.table.rows| && s.table.rows[i].status != Failed && NotFailedYet(Next(s, actions[0]), actions[1..], i))
  }

  lemma {:induction false} RunEarly(s: State, actions: seq<Action>, i: nat, n: nat)
    requires Inv(s) && IsRun(s, actions) && UndisturbedRun(s, actions, i) && NotFailedYet(s, actions, i)
    requires i < |s.table.rows| && Counted(s.table.rows[i], s.procs, n) && n <= MAX_RETRIES + 1
    requires s.table.rows[i].status != Failed ==> Early(s.procs, s.table.rows[i].url, n)
    ensures var t := After(s, actions);
            i < |t.table.rows| && n + Failures(s, actions, s.table.rows[i].url) <= MAX_RETRIES + 1
    decreases |actions|
  {
    hide Inv, Counted, Next, Enabled, Undisturbed, FailuresAt, Early;
    if actions != [] {
      StepKeepsInv(s, actions[0]);
      StepCounts(s, actions[0], i, n);
      StepEarly(s, actions[0], i, n);
      RunEarly(Next(s, actions[0]), actions[1..], i, n + FailuresAt(s, actions[0], s.table.rows[i].url));
    }
  }

  /** When the image becomes failed for the first time it has failed exactly four times. */
  lemma GivenUpAfterFour(s: State, actions: seq<Action>, i: nat)
    requires Inv(s) && IsRun(s, actions) && UndisturbedRun(s, actions, i) && Untried(s, i)
    requires NotFailedYet(s, actions, i)
    ensures var t := After(s, actions);
            i < |t.table.rows| && (t.table.rows[i].status == Failed ==> Failures(s, actions, s.table.rows[i].url) == 4)
  {
    hide After, IsRun, UndisturbedRun, Failures, Flying, Inv, Counted, NotFailedYet;
    UntriedCounts(s, i);
    RunEarly(s, actions, i, 0);
    FourAttempts(s, actions, i);
  }
}
