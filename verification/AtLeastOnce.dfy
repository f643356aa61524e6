/** What a row that is done says about uploads: of its file, which is what the backend
    stores, and under its URL, by which the rows are written. */
module AtLeastOnce {
  import opened Bytes
  import opened ImageTable
  import opened Pipeline
  import opened Uploads
  import opened ExactlyOnce

  // ---- By file ----

  ghost predicate FileNotDone(rows: seq<Row>, name: string) {
    forall i :: 0 <= i < |rows| && rows[i].filename == name ==> rows[i].status != Done
  }

  /** The step is a worker's final write, and it meets a row with this file name. */
  ghost predicate Records(s: State, a: Action, name: string) {
    && a.Advance? && a.p in s.procs && s.procs[a.p].Working? && s.procs[a.p].w.WSetDone?
    && exists i :: 0 <= i < |s.table.rows| && s.table.rows[i].url == s.procs[a.p].w.img.url
           && s.table.rows[i].filename == name
  }

  /** ...though the worker has uploaded another file. */
  ghost predicate Mistakes(s: State, a: Action, name: string) {
    Records(s, a, name) && s.procs[a.p].w.img.filename != name
  }

  lemma SqlKeepsFile(rows: seq<Row>, c: Change, name: string)
    requires FileNotDone(rows, name)
    ensures FileNotDone(Apply(rows, c), name) <==>
            !(c.SetStatus? && c.status == Done
                          && exists i :: 0 <= i < |rows| && rows[i].url == c.url && rows[i].filename == name)
  {
    if c.SetStatus? && c.status == Done {
      forall i | 0 <= i < |rows| && rows[i].url == c.url && rows[i].filename == name
        ensures Apply(rows, c)[i].status == Done && Apply(rows, c)[i].filename == name
      {
      }
    }
  }

  lemma ProduceKeepsFile(s: State, p: nat, q: Producer, name: string)
    requires FileNotDone(s.table.rows, name)
    ensures FileNotDone(Produce(s, p, q).table.rows, name)
  {
    hide Apply, ImagesOf, FileNotDone;
    if q.QSetQueued? && q.imgs != [] {
      SqlKeepsFile(s.table.rows, SetStatus(q.imgs[0].url, Queued, ""), name);
    }
  }

  lemma WorkFileIff(s: State, p: nat, w: Worker, name: string)
    requires FileNotDone(s.table.rows, name) && p in s.procs && s.procs[p] == Working(w) && CanAdvance(s, Working(w))
    ensures FileNotDone(Work(s, p, w).table.rows, name) <==> !Records(s, Advance(p), name)
  {
    hide Apply, RetriesOf, RetryBackoff, FileNotDone;
    var rows := s.table.rows;
    match w {
      case WSetPaused(img) => SqlKeepsFile(rows, SetStatus(img.url, Queued, "paused"), name);
      case WSetCancelled(img) => SqlKeepsFile(rows, SetStatus(img.url, Queued, "context cancelled"), name);
      case WSetUploading(img) => SqlKeepsFile(rows, SetStatus(img.url, Status.Uploading, ""), name);
      case WSetAborted(img) => SqlKeepsFile(rows, SetStatus(img.url, Queued, "context cancelled"), name);
      case WSetRetry(img, attempt, at) =>
        SqlKeepsFile(rows, SetRetryQueued(img.url, attempt, at, "transfer failed"), name);
      case WSetFailed(img) => SqlKeepsFile(rows, SetStatus(img.url, Failed, "transfer failed"), name);
      case WSetDone(img) => SqlKeepsFile(rows, SetStatus(img.url, Done, ""), name);
      case _ =>
    }
  }

  lemma DoKeepsFile(s: State, p: nat, o: Other, name: string)
    requires FileNotDone(s.table.rows, name) && PcInv(s.table, Doing(o), s.lastFailure + 20)
    ensures FileNotDone(Do(s, p, o).table.rows, name)
  {
    hide Apply, Decide, FileNotDone, Write, Stands;
    match o {
      case CReset => SqlKeepsFile(s.table.rows, ResetQueued, name);
      case CSetDiscovered(img) => SqlKeepsFile(s.table.rows, SetStatus(img.url, Discovered, ""), name);
      case AWrite(d) => WriteKeepsFile(s.table, Numbered(s.table, d), name);
      case _ =>
    }
  }

  lemma WriteKeepsFile(t: Table, d: Decision, name: string)
    requires FileNotDone(t.rows, name) && Stands(t, d)
    ensures FileNotDone(Write(t, d).rows, name)
  {
    hide Collides, Stands;
    if d.Insert? {
      InsertsDiscovered(t, d);
    }
  }

  /** A file that is not done becomes done by exactly one kind of step: a worker's final
      write that meets its row. */
  lemma FileDoneIff(s: State, a: Action, name: string)
    requires Inv(s) && Enabled(s, a) && FileNotDone(s.table.rows, name)
    ensures FileNotDone(Next(s, a).table.rows, name) <==> !Records(s, a, name)
  {
    hide TableInv, RetryRows, Stands, Produce, Work, Do, FileNotDone, Apply;
    match a {
      case Advance(p) =>
        match s.procs[p] {
          case Pushing(q) => ProduceKeepsFile(s, p, q, name);
          case Working(w) => WorkFileIff(s, p, w, name);
          case Doing(o) => DoKeepsFile(s, p, o, name);
        }
      case Execute(c) => SqlKeepsFile(s.table.rows, c, name);
      case _ =>
    }
  }

  // ---- Every final write has its upload ----

  predicate Finishes(pc: Pc, name: string) {
    pc.Working? && pc.w.WSetDone? && pc.w.img.filename == name
  }

  /** The workers that have uploaded the file and not yet written so. */
  function Finishing(procs: map<nat, Pc>, name: string): set<nat> {
    set p | p in procs && Finishes(procs[p], name)
  }

  /** The final writes after uploads of the file that a step makes. */
  function WritesAt(s: State, a: Action, name: string): nat {
    if a.Advance? && a.p in s.procs && Finishes(s.procs[a.p], name) then 1 else 0
  }

  lemma FinishingMoves(procs: map<nat, Pc>, p: nat, pc: Pc, name: string)
    ensures |Finishing(procs[p := pc], name)| + (if p in procs && Finishes(procs[p], name) then 1 else 0)
         == |Finishing(procs, name)| + if Finishes(pc, name) then 1 else 0
  {
    hide Finishes;
    var before, after := Finishing(procs, name), Finishing(procs[p := pc], name);
    assert after - {p} == before - {p};
    assert p in after <==> Finishes(pc, name);
    assert p in before <==> p in procs && Finishes(procs[p], name);
    Without(before, p);
    Without(after, p);
  }

  lemma Without(s: set<nat>, p: nat)
    ensures |s| == |s - {p}| + if p in s then 1 else 0
  {
    if p in s {
      assert s == s - {p} + {p};
    } else {
      assert s == s - {p};
    }
  }

  lemma ProduceFinishes(s: State, p: nat, q: Producer, name: string)
    ensures var t := Produce(s, p, q);
            p in t.procs && t.procs == s.procs[p := t.procs[p]] && !Finishes(t.procs[p], name)
  {
    hide Apply, ImagesOf;
  }

  lemma WorkFinishes(s: State, p: nat, w: Worker, name: string)
    requires CanAdvance(s, Working(w))
    ensures var t := Work(s, p, w);
            p in t.procs && t.procs == s.procs[p := t.procs[p]] && !Finishes(t.procs[p], name)
  {
    hide Apply, RetriesOf, RetryBackoff, IsClosed;
  }

  lemma DoFinishes(s: State, p: nat, o: Other, name: string)
    ensures var t := Do(s, p, o);
            p in t.procs && t.procs == s.procs[p := t.procs[p]] && !Finishes(t.procs[p], name)
  {
    hide Apply, Decide, Write;
  }

  lemma StepConserves(s: State, a: Action, name: string)
    requires Enabled(s, a)
    ensures UploadsAt(s, a, name) + |Finishing(s.procs, name)|
         == WritesAt(s, a, name) + |Finishing(Next(s, a).procs, name)|
  {
    hide Produce, Work, Do, Finishing;
    match a {
      case Advance(p) =>
        match s.procs[p] {
          case Pushing(q) => ProduceFinishes(s, p, q, name);
          case Working(w) => WorkFinishes(s, p, w, name);
          case Doing(o) => DoFinishes(s, p, o, name);
        }
        FinishingMoves(s.procs, p, Next(s, a).procs[p], name);
      case Spawn(p, pc) => FinishingMoves(s.procs, p, pc, name);
      case Fail(p) => FinishingMoves(s.procs, p, Next(s, a).procs[p], name);
      case Succeed(p) => FinishingMoves(s.procs, p, Next(s, a).procs[p], name);
      case Stop(p) => FinishingMoves(s.procs, p, Next(s, a).procs[p], name);
      case _ =>
    }
  }

  ghost function WritesOf(s: State, actions: seq<Action>, name: string): nat
    requires IsRun(s, actions)
    decreases |actions|
  {
    if actions == [] then 0 else WritesAt(s, actions[0], name) + WritesOf(Next(s, actions[0]), actions[1..], name)
  }

  /** In every interleaving the uploads of a file are the final writes after them and the
      workers that have yet to make theirs. */
  lemma {:induction false} UploadsConserved(s: State, actions: seq<Action>, name: string)
    requires IsRun(s, actions)
    ensures UploadsOf(s, actions, name) + |Finishing(s.procs, name)|
         == WritesOf(s, actions, name) + |Finishing(After(s, actions).procs, name)|
    decreases |actions|
  {
    hide Enabled, Next, UploadsAt, WritesAt, Finishing;
    if actions != [] {
      StepConserves(s, actions[0], name);
      UploadsConserved(Next(s, actions[0]), actions[1..], name);
    }
  }

  // ---- Done means uploaded, but for mistaken writes ----

  /** At every state of the run, after `n` uploads of the file before it, the file has been
      uploaded or is not done. */
  ghost predicate Earned(s: State, actions: seq<Action>, name: string, n: nat)
    requires IsRun(s, actions)
    decreases |actions|
  {
    && (n > 0 || FileNotDone(s.table.rows, name))
    && (actions == [] || Earned(Next(s, actions[0]), actions[1..], name, n + UploadsAt(s, actions[0], name)))
  }

  /** Until the file has been uploaded no worker that has uploaded another one makes its
      final write to the file's row. */
  ghost predicate NeverMistaken(s: State, actions: seq<Action>, name: string, n: nat)
    requires IsRun(s, actions)
    decreases |actions|
  {
    actions == [] ||
    (&& (n > 0 || !Mistakes(s, actions[0], name))
     && NeverMistaken(Next(s, actions[0]), actions[1..], name, n + UploadsAt(s, actions[0], name)))
  }

  lemma {:induction false} OnceUploaded(s: State, actions: seq<Action>, name: string, n: nat)
    requires IsRun(s, actions) && n > 0
    ensures Earned(s, actions, name, n) && NeverMistaken(s, actions, name, n)
    decreases |actions|
  {
    hide Next, Enabled, UploadsAt, Mistakes, FileNotDone;
    if actions != [] {
      OnceUploaded(Next(s, actions[0]), actions[1..], name, n + UploadsAt(s, actions[0], name));
    }
  }

  lemma {:induction false} EarnedIff(s: State, actions: seq<Action>, name: string)
    requires Inv(s) && IsRun(s, actions) && FileNotDone(s.table.rows, name) && |Finishing(s.procs, name)| == 0
    ensures Earned(s, actions, name, 0) <==> NeverMistaken(s, actions, name, 0)
    decreases |actions|
  {
    hide Inv, FileNotDone, Next, Enabled, Mistakes, Records, WritesAt, UploadsAt, Finishing;
    if actions != [] {
      var a, t := actions[0], Next(s, actions[0]);
      StepKeepsInv(s, a);
      StepConserves(s, a, name);
      if UploadsAt(s, a, name) > 0 {
        OnceUploaded(t, actions[1..], name, UploadsAt(s, a, name));
        UploadIsNoWrite(s, a, name);
      } else {
        FileDoneIff(s, a, name);
        RecordsMistake(s, a, name);
        if FileNotDone(t.table.rows, name) {
          EarnedIff(t, actions[1..], name);
        } else {
          assert !Earned(t, actions[1..], name, 0);
        }
      }
    }
  }

  lemma UploadIsNoWrite(s: State, a: Action, name: string)
    requires UploadsAt(s, a, name) > 0
    ensures !Mistakes(s, a, name)
  {
  }

  lemma RecordsMistake(s: State, a: Action, name: string)
    requires WritesAt(s, a, name) == 0
    ensures Records(s, a, name) <==> Mistakes(s, a, name)
  {
  }

  /** A file is done only after an upload of it has completed, but for mistaken writes: in
      every interleaving from a fresh pipeline in which the file is not done at first,
      it has been uploaded by the time it is done exactly as long as no worker that has
      uploaded another file makes its final write to the file's row before that. */
  lemma DoneMeansUploaded(s: State, actions: seq<Action>, name: string)
    requires IsInitial(s) && IsRun(s, actions) && FileNotDone(s.table.rows, name)
    ensures Earned(s, actions, name, 0) <==> NeverMistaken(s, actions, name, 0)
  {
    hide IsRun, FileNotDone, Earned, NeverMistaken, Inv;
    assert Inv(s) by { InitialInv(s); }
    assert Finishing(s.procs, name) == {};
    EarnedIff(s, actions, name);
  }

  /** Mistaken writes happen. From a fresh pipeline with one queued image: it is transferred;
      before the worker records that, its file is seen under a new URL and another file
      under its old one; the worker then writes done, by URL, to the row of the other
      file, of which no upload has completed. */
  lemma MistakenDone(s: State, row: Row, other: string, url: string) returns (actions: seq<Action>, t: State)
    requires IsInitial(s) && !s.cancelled && s.table.rows == [row] && IsFresh(row)
    requires other != row.filename && url != row.url
    ensures FileNotDone(s.table.rows, other)
    ensures Leads(s, actions, t) && UploadsOf(s, actions, other) == 0
    ensures |t.table.rows| == 2 && t.table.rows[1].filename == other && t.table.rows[1].status == Done
  {
    hide Leads, ExactlyOnce.Uploading, Inv, Apply, Decide, Write, Numbered;
    var img := Image(row.filename, row.url);
    var xs, u := Transferred(s, img);
    var first, second := Sighting(row.filename, url, "", None, false), Sighting(other, row.url, "", None, false);
    var v := Go(u.(table := Write(u.table, Numbered(u.table, Decide(u.table, first)))), 3, Returned);
    var w := Go(v.(table := Write(v.table, Numbered(v.table, Decide(v.table, second)))), 4, Returned);
    t := Go(Sql(w, SetStatus(img.url, Done, "")), 2, Working(WGate));
    LateWrite(w, 2, img, t);
    SightingThen(v, 4, second, [Advance(2)] + [], t);
    var zs := [Spawn(4, Doing(AFind(second)))] + ([Advance(4)] + ([Advance(4)] + ([Advance(2)] + [])));
    SightingThen(u, 3, first, zs, t);
    var ys := [Spawn(3, Doing(AFind(first)))] + ([Advance(3)] + ([Advance(3)] + zs));
    actions := xs + ys;
    UploadingIsRun(s, xs, u, img.filename, 1);
    Concatenated(s, xs, u, ys, t);
    QuietRun(u, ys, t, other);
    Join(s, xs, u, ys, t, other, 0, 0);
    UploadingCounts(s, actions, t, other, 0);
    MistakenTable(s.table, row, other, url);
  }

  /** What the table goes through: uploading, renamed, the other file added, done. */
  lemma MistakenTable(t: Table, row: Row, other: string, url: string)
    requires TableInv(t) && t.rows == [row] && other != row.filename && url != row.url
    ensures var first, second := Sighting(row.filename, url, "", None, false),
                                    Sighting(other, row.url, "", None, false);
            var u := t.(rows := Apply(t.rows, SetStatus(row.url, Status.Uploading, "")));
            var v := Write(u, Numbered(u, Decide(u, first)));
            var w := Write(v, Numbered(v, Decide(v, second)));
            var rows := Apply(w.rows, SetStatus(row.url, Done, ""));
            |rows| == 2 && rows[1].filename == other && rows[1].status == Done
  {
    var up := Changed(SetStatus(row.url, Status.Uploading, ""), row);
    var u := t.(rows := Apply(t.rows, SetStatus(row.url, Status.Uploading, "")));
    assert u.rows == [up] && [up][1..] == [];
    var moved := up.(url := url);
    var v := Write(u, Rebind(up, url));
    assert v.rows == [moved] && [moved][1..] == [];
  }

  // ---- By URL ----

  /** The uploads that a step completes of an image with this URL. */
  function UrlUploadsAt(s: State, a: Action, url: string): nat {
    if a.Succeed? && InTransfer(s, a.p) && s.procs[a.p].w.img.url == url then 1 else 0
  }

  predicate IsFinishing(pc: Pc, url: string) {
    pc.Working? && pc.w.WSetDone? && pc.w.img.url == url
  }

  ghost predicate NoneFinishing(procs: map<nat, Pc>, url: string) {
    forall p :: p in procs ==> !IsFinishing(procs[p], url)
  }

  ghost predicate RowsNotDone(rows: seq<Row>, url: string) {
    forall i :: 0 <= i < |rows| && rows[i].url == url ==> rows[i].status != Done
  }

  /** No row with this URL is done, nor about to be written so. */
  ghost predicate NotDone(s: State, url: string) {
    RowsNotDone(s.table.rows, url) && NoneFinishing(s.procs, url)
  }

  /** The step gives a done row this URL: its file has been seen under another handle. */
  ghost predicate Adopts(s: State, a: Action, url: string) {
    && a.Advance? && a.p in s.procs
    && match s.procs[a.p]
       case Doing(AWrite(Rebind(row, u))) =>
         && u == url && !Collides(s.table, Rebind(row, u))
         && exists i :: 0 <= i < |s.table.rows| && s.table.rows[i].id == row.id && s.table.rows[i].status == Done
       case _ => false
  }

  lemma SqlNotDone(rows: seq<Row>, c: Change, url: string)
    requires RowsNotDone(rows, url) && !(c.SetStatus? && c.url == url && c.status == Done)
    ensures RowsNotDone(Apply(rows, c), url)
  {
  }

  lemma ProduceNotDone(s: State, p: nat, q: Producer, url: string)
    requires NotDone(s, url)
    ensures NotDone(Produce(s, p, q), url)
  {
    hide Apply, ImagesOf, RowsNotDone;
    if q.QSetQueued? && q.imgs != [] {
      SqlNotDone(s.table.rows, SetStatus(q.imgs[0].url, Queued, ""), url);
    }
  }

  lemma WorkNotDone(s: State, p: nat, w: Worker, url: string)
    requires NotDone(s, url) && p in s.procs && s.procs[p] == Working(w) && CanAdvance(s, Working(w))
    ensures NotDone(Work(s, p, w), url)
  {
    hide Apply, RetriesOf, RetryBackoff, RowsNotDone;
    var rows := s.table.rows;
    match w {
      case WSetPaused(img) => SqlNotDone(rows, SetStatus(img.url, Queued, "paused"), url);
      case WSetCancelled(img) => SqlNotDone(rows, SetStatus(img.url, Queued, "context cancelled"), url);
      case WSetUploading(img) => SqlNotDone(rows, SetStatus(img.url, Status.Uploading, ""), url);
      case WSetAborted(img) => SqlNotDone(rows, SetStatus(img.url, Queued, "context cancelled"), url);
      case WSetRetry(img, attempt, at) =>
        SqlNotDone(rows, SetRetryQueued(img.url, attempt, at, "transfer failed"), url);
      case WSetFailed(img) => SqlNotDone(rows, SetStatus(img.url, Failed, "transfer failed"), url);
      case WSetDone(img) => SqlNotDone(rows, SetStatus(img.url, Done, ""), url);
      case _ =>
    }
  }

  lemma DoNotDoneIff(s: State, p: nat, o: Other, url: string)
    requires NotDone(s, url) && p in s.procs && s.procs[p] == Doing(o) && PcInv(s.table, Doing(o), s.lastFailure + 20)
    ensures NotDone(Do(s, p, o), url) <==> !Adopts(s, Advance(p), url)
  {
    hide Apply, Decide, RowsNotDone, Write, Collides, Stands;
    match o {
      case CReset => SqlNotDone(s.table.rows, ResetQueued, url);
      case CSetDiscovered(img) => SqlNotDone(s.table.rows, SetStatus(img.url, Discovered, ""), url);
      case AWrite(d) => WriteNotDoneIff(s, p, d, url);
      case _ =>
    }
  }

  lemma WriteNotDoneIff(s: State, p: nat, d: Decision, url: string)
    requires RowsNotDone(s.table.rows, url) && p in s.procs && s.procs[p] == Doing(AWrite(d))
    requires Stands(s.table, Numbered(s.table, d))
    ensures RowsNotDone(Write(s.table, Numbered(s.table, d)).rows, url) <==> !Adopts(s, Advance(p), url)
  {
    hide Collides, Stands;
    var e := Numbered(s.table, d);
    var rows, u := s.table.rows, Write(s.table, e).rows;
    if !Collides(s.table, e) {
      if d.Rebind? {
        forall i | 0 <= i < |rows|
          ensures u[i] == if rows[i].id == d.row.id then rows[i].(url := d.url) else rows[i]
        {
        }
      } else if d.Insert? {
        assert e.row.status == Discovered by { InsertsDiscovered(s.table, e); }
      }
    }
  }

  /** Exactly two kinds of step end with a row done, or about to be, under a URL that had
      none: the end of an upload of it, and the adoption of it by a done row. */
  lemma UrlDoneIff(s: State, a: Action, url: string)
    requires Inv(s) && Enabled(s, a) && NotDone(s, url)
    ensures NotDone(Next(s, a), url) <==> !Adopts(s, a, url) && UrlUploadsAt(s, a, url) == 0
  {
    hide TableInv, RetryRows, Stands, Produce, Work, Do, RowsNotDone, Apply, Adopts;
    assert !a.Advance? || (a.p in s.procs && !s.procs[a.p].Doing?) ==> !Adopts(s, a, url)
      by { OnlyWritesAdopt(s, a, url); }
    match a {
      case Advance(p) =>
        match s.procs[p] {
          case Pushing(q) => ProduceNotDone(s, p, q, url);
          case Working(w) => WorkNotDone(s, p, w, url);
          case Doing(o) => DoNotDoneIff(s, p, o, url);
        }
      case Execute(c) => SqlNotDone(s.table.rows, c, url);
      case Succeed(p) => assert p in Next(s, a).procs;
      case _ =>
    }
  }

  lemma OnlyWritesAdopt(s: State, a: Action, url: string)
    ensures Adopts(s, a, url) ==> a.Advance? && a.p in s.procs && s.procs[a.p].Doing?
  {
  }

  /** At every state of the run. */
  ghost predicate UrlStaysNotDone(s: State, actions: seq<Action>, url: string)
    requires IsRun(s, actions)
    decreases |actions|
  {
    NotDone(s, url) && (actions == [] || UrlStaysNotDone(Next(s, actions[0]), actions[1..], url))
  }

  /** No step of the run completes an upload of the URL or gives it to a done row. */
  ghost predicate UrlNeverEarned(s: State, actions: seq<Action>, url: string)
    requires IsRun(s, actions)
    decreases |actions|
  {
    actions == [] ||
    (!Adopts(s, actions[0], url) && UrlUploadsAt(s, actions[0], url) == 0
     && UrlNeverEarned(Next(s, actions[0]), actions[1..], url))
  }

  /** In every interleaving a URL that has no done row gets none exactly as long as no
      upload under it completes and no row that is done already is given the URL because
      its file has been seen under it. */
  lemma {:induction false} UrlDoneMeansUploaded(s: State, actions: seq<Action>, url: string)
    requires Inv(s) && NotDone(s, url) && IsRun(s, actions)
    ensures UrlStaysNotDone(s, actions, url) <==> UrlNeverEarned(s, actions, url)
    decreases |actions|
  {
    hide Inv, NotDone, Next, Enabled, Adopts, UploadsAt;
    if actions != [] {
      StepKeepsInv(s, actions[0]);
      UrlDoneIff(s, actions[0], url);
      if NotDone(Next(s, actions[0]), url) {
        UrlDoneMeansUploaded(Next(s, actions[0]), actions[1..], url);
      } else {
        assert !UrlStaysNotDone(Next(s, actions[0]), actions[1..], url);
      }
    }
  }

  /** From a fresh pipeline over one done row, the file is seen under another URL, and the
      row is done under a URL from which nothing was uploaded. */
  lemma DoneUnderNewUrl(s: State, row: Row, url: string) returns (actions: seq<Action>, t: State)
    requires IsInitial(s) && s.table.rows == [row] && row.status == Done && url != row.url
    ensures NotDone(s, url)
    ensures Leads(s, actions, t) && |t.table.rows| == 1
    ensures t.table.rows[0].url == url && t.table.rows[0].status == Done
    ensures forall a :: a in actions ==> !a.Succeed?
  {
    hide Leads;
    var sighting := Sighting(row.filename, url, "", None, false);
    var d := Rebind(row, url);
    t := Go(s.(table := Write(s.table, d)), 0, Returned);
    actions := [Spawn(0, Doing(AFind(sighting)))] + ([Advance(0)] + ([Advance(0)] + []));
    assert [row][1..] == [];
    assert Decide(s.table, sighting) == d;
    NoSteps(t);
    SightingThen(s, 0, sighting, [], t);
    assert t.table.rows[0] == row.(url := url);
  }
}
