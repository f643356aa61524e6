/** The image table of internal/db/image.go: rows with a unique file name and a unique
    URL, changed by one SQL statement at a time. */
module ImageTable {
  import opened Bytes

  datatype Status = Discovered | Queued | Uploading | Done | Failed

  datatype Row = Row(
    id: nat, filename: string, url: string, status: Status,
    retryCount: nat, lastError: string, nextRetryAt: Option<int>,
    capturedAt: Option<int>, isVideo: bool,
    cameraFolder: string, destPath: string, uploadSource: string)

  /** Rows in insertion order, and the next primary key. */
  datatype Table = Table(rows: seq<Row>, nextId: nat)

  const EMPTY_TABLE := Table([], 0)

  predicate Terminal(s: Status) {
    s == Done || s == Failed
  }

  // ---- Updates ----

  /** The statements that change the status of rows. */
  datatype Change =
    | SetStatus(url: string, status: Status, message: string)
    | SetRetryQueued(url: string, count: nat, at: int, message: string)
    | MarkQueued(urls: set<string>)
    | MarkQueuedWithMeta(urls: set<string>, destPath: string, source: string)
    | MarkAllDiscoveredQueued
    | ResetQueued
    | ResetStuckUploading
    | ResetFailed

  predicate Selects(c: Change, r: Row) {
    match c
    case SetStatus(url, _, _) => r.url == url
    case SetRetryQueued(url, _, _, _) => r.url == url
    case MarkQueued(urls) => r.url in urls && r.status == Discovered
    case MarkQueuedWithMeta(urls, _, _) => r.url in urls && r.status == Discovered
    case MarkAllDiscoveredQueued => r.status == Discovered
    case ResetQueued => r.status == Queued
    case ResetStuckUploading => r.status == Uploading
    case ResetFailed => r.status == Failed
  }

  function Changed(c: Change, r: Row): Row {
    match c
    case SetStatus(_, status, message) =>
      r.(status := status, lastError := message, nextRetryAt := if Terminal(status) then None else r.nextRetryAt)
    case SetRetryQueued(_, count, at, message) =>
      r.(status := Queued, retryCount := count, nextRetryAt := Some(at), lastError := message)
    case MarkQueued(_) => r.(status := Queued, retryCount := 0, lastError := "")
    case MarkQueuedWithMeta(_, destPath, source) =>
      r.(status := Queued, retryCount := 0, lastError := "", destPath := destPath, uploadSource := source)
    case MarkAllDiscoveredQueued => r.(status := Queued, retryCount := 0, lastError := "", uploadSource := "manual")
    case ResetQueued => r.(status := Discovered, retryCount := 0, lastError := "", nextRetryAt := None)
    case ResetStuckUploading => r.(status := Queued, lastError := "interrupted by restart")
    case ResetFailed => r.(status := Queued, retryCount := 0, lastError := "", nextRetryAt := None)
  }

  function Step(c: Change, r: Row): Row {
    if Selects(c, r) then Changed(c, r) else r
  }

  /** One UPDATE statement over the whole table. */
  function Apply(rows: seq<Row>, c: Change): (updated: seq<Row>)
    ensures |updated| == |rows| && forall i :: 0 <= i < |rows| ==> updated[i] == Step(c, rows[i])
  {
    seq(|rows|, i requires 0 <= i < |rows| => Step(c, rows[i]))
  }

  /** The places of the rows the statement affects. */
  function Selected(rows: seq<Row>, c: Change): (places: set<nat>)
    ensures forall i: nat :: i in places <==> i < |rows| && Selects(c, rows[i])
  {
    set i: nat | 0 <= i < |rows| && Selects(c, rows[i])
  }

  lemma SelectedNext(rows: seq<Row>, r: Row, c: Change)
    ensures |Selected(rows + [r], c)| == |Selected(rows, c)| + if Selects(c, r) then 1 else 0
  {
    hide Selects;
    var more := rows + [r];
    assert forall i :: 0 <= i < |rows| ==> more[i] == rows[i];
    assert Selected(more, c) == Selected(rows, c) + if Selects(c, r) then {|rows|} else {};
  }

  predicate IsFresh(r: Row) {
    r.status == Queued && r.retryCount == 0
  }

  predicate IsReady(r: Row, now: int) {
    r.status == Queued && r.retryCount > 0 && (r.nextRetryAt.None? || r.nextRetryAt.value <= now)
  }

  /** What a statement is for. A row it is not about stays as it is; of one it is about the
      keys, the date, the video flag and the folder do. */
  ghost predicate Means(c: Change, r: Row, after: Row) {
    var kept := r.(status := after.status, retryCount := after.retryCount, lastError := after.lastError,
                   nextRetryAt := after.nextRetryAt);
    match c
    case SetStatus(url, status, message) =>
      if r.url != url then after == r
      else && after == kept && after.status == status && after.lastError == message
           && after.retryCount == r.retryCount
           && (status == Done || status == Failed ==> after.nextRetryAt == None)
           && (status != Done && status != Failed ==> after.nextRetryAt == r.nextRetryAt)
    case SetRetryQueued(url, count, at, message) =>
      if r.url != url then after == r
      else && after == kept && after.retryCount == count && after.lastError == message
           && (forall now :: IsReady(after, now) <==> count > 0 && at <= now)
           && (IsFresh(after) <==> count == 0) && after.nextRetryAt == Some(at)
    case MarkQueued(urls) =>
      if r.status != Discovered || r.url !in urls then after == r
      else after == kept && IsFresh(after) && after.lastError == "" && after.nextRetryAt == r.nextRetryAt
    case MarkQueuedWithMeta(urls, destPath, source) =>
      if r.status != Discovered || r.url !in urls then after == r
      else && after == kept.(destPath := destPath, uploadSource := source)
           && IsFresh(after) && after.lastError == "" && after.nextRetryAt == r.nextRetryAt
    case MarkAllDiscoveredQueued =>
      if r.status != Discovered then after == r
      else && after == kept.(uploadSource := "manual")
           && IsFresh(after) && after.lastError == "" && after.nextRetryAt == r.nextRetryAt
    case ResetQueued =>
      if r.status != Queued then after == r
      else && after == kept && after.status == Discovered && after.retryCount == 0 && after.lastError == ""
           && after.nextRetryAt == None
    case ResetStuckUploading =>
      if r.status != Uploading then after == r
      else && after == kept && after.lastError == "interrupted by restart" && after.nextRetryAt == r.nextRetryAt
           && after.retryCount == r.retryCount && after.status == Queued
    case ResetFailed =>
      if r.status != Failed then after == r
      else after == kept && IsFresh(after) && after.lastError == "" && after.nextRetryAt == None
  }

  lemma StepMeans(c: Change, r: Row)
    ensures Means(c, r, Step(c, r))
  {
  }

  // ---- FindOrCreate ----

  /** What the poller reports about an image on the camera. */
  datatype Sighting = Sighting(filename: string, url: string, folder: string, capturedAt: Option<int>, isVideo: bool)

  /** What FindOrCreate decides to write after its lookups. */
  datatype Decision =
    | Insert(row: Row)
    | Rebind(row: Row, url: string)
    | Reuse(row: Row, filename: string, capturedAt: Option<int>, isVideo: bool)
    | Backfill(row: Row, capturedAt: Option<int>, isVideo: bool, folder: string)
    | Leave(row: Row)

  /** The two unique keys. */
  datatype Key = Url(url: string) | Filename(name: string)

  predicate Has(r: Row, k: Key) {
    match k
    case Url(url) => r.url == url
    case Filename(name) => r.filename == name
  }

  function Lookup(rows: seq<Row>, k: Key): (found: Option<Row>)
    ensures match found
            case None => forall r :: r in rows ==> !Has(r, k)
            case Some(r) => r in rows && Has(r, k)
  {
    if rows == [] then None
    else if Has(rows[0], k) then Some(rows[0])
    else Lookup(rows[1..], k)
  }

  function NewRow(id: nat, s: Sighting): Row {
    Row(id, s.filename, s.url, Discovered, 0, "", None, s.capturedAt, s.isVideo, s.folder, "", "")
  }

  function Decide(t: Table, s: Sighting): Decision {
    match Lookup(t.rows, Url(s.url))
    case None =>
      (match Lookup(t.rows, Filename(s.filename))
       case Some(r) => Rebind(r, s.url)
       case None => Insert(NewRow(t.nextId, s)))
    case Some(r) =>
      if Terminal(r.status) && r.filename != s.filename then Reuse(r, s.filename, s.capturedAt, s.isVideo)
      else
        var capturedAt := if r.capturedAt.None? then s.capturedAt else None;
        var isVideo := s.isVideo && !r.isVideo;
        var folder := if r.cameraFolder == "" then s.folder else "";
        if capturedAt.Some? || isVideo || folder != "" then Backfill(r, capturedAt, isVideo, folder) else Leave(r)
  }

  /** The row a decision stores in place of `r`. */
  function Rewritten(d: Decision, r: Row): Row {
    match d
    case Rebind(_, url) => r.(url := url)
    case Reuse(_, filename, capturedAt, isVideo) =>
      r.(filename := filename, status := Discovered, retryCount := 0, lastError := "", nextRetryAt := None,
         capturedAt := capturedAt, isVideo := isVideo)
    case Backfill(_, capturedAt, isVideo, folder) =>
      r.(capturedAt := if capturedAt.Some? then capturedAt else r.capturedAt,
         isVideo := isVideo || r.isVideo,
         cameraFolder := if folder != "" then folder else r.cameraFolder)
    case _ => r
  }

  /** UPDATE ... WHERE id = the row's primary key. */
  function Rewrite(rows: seq<Row>, d: Decision): (updated: seq<Row>)
    ensures |updated| == |rows|
    ensures forall i :: 0 <= i < |rows| ==>
                  updated[i] == if rows[i].id == d.row.id then Rewritten(d, rows[i]) else rows[i]
  {
    seq(|rows|, i requires 0 <= i < |rows| => if rows[i].id == d.row.id then Rewritten(d, rows[i]) else rows[i])
  }

  /** The write violates a unique index: some other row already has the key. */
  ghost predicate Collides(t: Table, d: Decision) {
    match d
    case Insert(row) => exists r :: r in t.rows && (r.url == row.url || r.filename == row.filename)
    case Rebind(row, url) => exists r :: r in t.rows && r.id != row.id && r.url == url
    case Reuse(row, filename, _, _) => exists r :: r in t.rows && r.id != row.id && r.filename == filename
    case _ => false
  }

  /** The table after the write; a rejected write changes nothing. */
  ghost function Write(t: Table, d: Decision): Table {
    if Collides(t, d) then t
    else if d.Insert? then Table(t.rows + [d.row], t.nextId + 1)
    else t.(rows := Rewrite(t.rows, d))
  }

  /** The copy that FindOrCreate hands back when the write goes through. */
  function Returned(d: Decision, s: Sighting): Row {
    match d
    case Backfill(r, _, _, _) =>
      r.(capturedAt := if s.capturedAt.Some? then s.capturedAt else r.capturedAt,
         isVideo := s.isVideo || r.isVideo,
         cameraFolder := if s.folder != "" then s.folder else r.cameraFolder)
    case _ => Rewritten(d, d.row)
  }

  // ---- What a call achieves ----

  /** The row that stands in the table after the row `r` has been seen as `s`, under its own
      URL. A finished row under another name starts over as the file the camera shows now;
      any other row only gets what it lacks. */
  ghost predicate SeenAgain(r: Row, s: Sighting, after: Row) {
    && after.id == r.id && after.url == r.url
    && after.destPath == r.destPath && after.uploadSource == r.uploadSource
    && if r.filename != s.filename && (r.status == Done || r.status == Failed) then
         && after.filename == s.filename && after.status == Discovered
         && after.retryCount == 0 && after.lastError == "" && after.nextRetryAt == None
         && after.capturedAt == s.capturedAt && after.isVideo == s.isVideo
         && after.cameraFolder == r.cameraFolder
       else
         && after.filename == r.filename && after.status == r.status
         && after.retryCount == r.retryCount && after.lastError == r.lastError && after.nextRetryAt == r.nextRetryAt
         && after.capturedAt == (if r.capturedAt.Some? then r.capturedAt else s.capturedAt)
         && after.isVideo == (r.isVideo || s.isVideo)
         && after.cameraFolder == (if r.cameraFolder != "" then r.cameraFolder else s.folder)
  }

  /** FindOrCreate answers a sighting whose URL row `i` has. */
  ghost predicate KnownUrl(t: Table, s: Sighting, i: nat, u: Table, rec: Option<Row>, created: bool, updated: bool)
    requires i < |t.rows|
  {
    var r := t.rows[i];
    var renames := r.filename != s.filename && (r.status == Done || r.status == Failed);
    if renames && exists q :: q in t.rows && q.filename == s.filename then
      u == t && rec == None && !created && !updated
    else
      && |u.rows| == |t.rows| && u == t.(rows := t.rows[i := u.rows[i]])
      && SeenAgain(r, s, u.rows[i])
      && created == renames && updated == (!renames && u.rows[i] != r)
      && rec.Some?
      && rec.value == u.rows[i].(
           capturedAt := if updated && s.capturedAt.Some? then s.capturedAt else u.rows[i].capturedAt,
           cameraFolder := if updated && s.folder != "" then s.folder else u.rows[i].cameraFolder)
  }

  /** What FindOrCreate does to the table `t` and answers. */
  ghost predicate Achieved(t: Table, s: Sighting, u: Table, rec: Option<Row>, created: bool, updated: bool) {
    && (forall i :: 0 <= i < |t.rows| && t.rows[i].url == s.url ==> KnownUrl(t, s, i, u, rec, created, updated))
    && ((forall r :: r in t.rows ==> r.url != s.url) ==>
          !updated
          && (forall i :: 0 <= i < |t.rows| && t.rows[i].filename == s.filename ==>
                var after := t.rows[i].(url := s.url);
                !created && rec == Some(after) && u == t.(rows := t.rows[i := after]))
          && ((forall r :: r in t.rows ==> r.filename != s.filename) ==>
                var fresher := Row(t.nextId, s.filename, s.url, Discovered, 0, "", None, s.capturedAt, s.isVideo,
                                   s.folder, "", "");
                created && rec == Some(fresher) && u == Table(t.rows + [fresher], t.nextId + 1)))
  }

  // ---- The repository ----

  class ImageRepo {
    var rows: seq<Row>
    var nextId: nat

    constructor ()
      ensures State() == EMPTY_TABLE
    {
      rows, nextId := [], 0;
    }

    function State(): Table
      reads this
    {
      Table(rows, nextId)
    }

    /** One UPDATE statement: each selected row changes, the others stay, and the count is
        that of the selected rows. */
    method Execute(c: Change) returns (affected: nat)
      modifies this`rows
      ensures |rows| == |old(rows)|
      ensures forall i :: 0 <= i < |rows| ==>
                      rows[i] == if Selects(c, old(rows)[i]) then Changed(c, old(rows)[i]) else old(rows)[i]
      ensures forall i :: 0 <= i < |rows| ==> Means(c, old(rows)[i], rows[i])
      ensures affected == |Selected(old(rows), c)|
      ensures old(TableInv(State())) ==> TableInv(State()) && Extends(old(State()), State())
    {
      hide Selects, Changed, TableInv, Extends, Means;
      affected := 0;
      ghost var before := State();
      forall i | 0 <= i < |rows|
        ensures Means(c, rows[i], Step(c, rows[i]))
      {
        StepMeans(c, rows[i]);
      }
      for i := 0 to |rows|
        invariant |rows| == |old(rows)|
        invariant forall j :: 0 <= j < i ==> rows[j] == Step(c, old(rows)[j])
        invariant forall j :: i <= j < |rows| ==> rows[j] == old(rows)[j]
        invariant affected == |Selected(old(rows)[..i], c)|
      {
        assert old(rows)[..i + 1] == old(rows)[..i] + [rows[i]];
        SelectedNext(old(rows)[..i], rows[i], c);
        if Selects(c, rows[i]) {
          rows := rows[i := Changed(c, rows[i])];
          affected := affected + 1;
        }
      }
      assert old(rows)[..|rows|] == old(rows);
      assert rows == Apply(old(rows), c);
      if TableInv(before) {
        ChangeKeepsInv(before, c);
      }
    }

    /** None stands for an error of the database. */
    method FindOrCreate(s: Sighting) returns (rec: Option<Row>, created: bool, updated: bool)
      modifies this
      ensures var d := Decide(old(State()), s);
              && State() == Write(old(State()), d)
              && rec == (if Collides(old(State()), d) then None else Some(Returned(d, s)))
              && created == (!Collides(old(State()), d) && (d.Insert? || d.Reuse?))
              && updated == d.Backfill?
      ensures old(TableInv(State())) ==> Achieved(old(State()), s, State(), rec, created, updated)
    {
      hide TableInv, Achieved;
      if TableInv(State()) {
        SightingAchieves(State(), s);
      }
      var urlMatch := Lookup(rows, Url(s.url));
      if urlMatch.None? {
        var filenameMatch := Lookup(rows, Filename(s.filename));
        if filenameMatch.Some? {
          var r := filenameMatch.value;
          rows := Rewrite(rows, Rebind(r, s.url));
          return Some(r.(url := s.url)), false, false;
        }
        var r := NewRow(nextId, s);
        rows, nextId := rows + [r], nextId + 1;
        return Some(r), true, false;
      }
      var r := urlMatch.value;
      if Terminal(r.status) && r.filename != s.filename {
        var other := LookupOther(rows, s.filename, r.id);
        if other.Some? {
          return None, false, false;
        }
        var d := Reuse(r, s.filename, s.capturedAt, s.isVideo);
        rows := Rewrite(rows, d);
        return Some(Rewritten(d, r)), true, false;
      }
      var d := Decide(State(), s);
      if d.Leave? {
        return Some(r), false, false;
      }
      rows := Rewrite(rows, d);
      return Some(Returned(d, s)), false, true;
    }
  }

  /** A row other than `id` with the given file name, as the unique index finds it. */
  function LookupOther(rows: seq<Row>, filename: string, id: nat): (found: Option<Row>)
    ensures found.Some? <==> exists r :: r in rows && r.id != id && r.filename == filename
  {
    if rows == [] then None
    else if rows[0].id != id && rows[0].filename == filename then Some(rows[0])
    else LookupOther(rows[1..], filename, id)
  }

  // ---- What every statement keeps ----

  ghost predicate UniqueKeys(rows: seq<Row>) {
    forall i, j :: 0 <= i < j < |rows| ==>
      rows[i].id != rows[j].id && rows[i].filename != rows[j].filename && rows[i].url != rows[j].url
  }

  ghost predicate TableInv(t: Table) {
    UniqueKeys(t.rows) && forall i :: 0 <= i < |t.rows| ==> RowInv(t.rows[i], t.nextId)
  }

  /** A finished row has no retry time. */
  ghost predicate RowInv(r: Row, nextId: nat) {
    r.id < nextId && (Terminal(r.status) ==> r.nextRetryAt.None?)
  }

  /** No row has been removed or has changed its place or primary key. */
  ghost predicate Extends(t: Table, u: Table) {
    |t.rows| <= |u.rows| && forall i :: 0 <= i < |t.rows| ==> u.rows[i].id == t.rows[i].id
  }

  lemma ChangeKeepsInv(t: Table, c: Change)
    requires TableInv(t)
    ensures TableInv(t.(rows := Apply(t.rows, c))) && Extends(t, t.(rows := Apply(t.rows, c)))
  {
    hide Step;
    var u := Apply(t.rows, c);
    forall i | 0 <= i < |u|
      ensures RowInv(u[i], t.nextId)
      ensures u[i].id == t.rows[i].id && u[i].filename == t.rows[i].filename && u[i].url == t.rows[i].url
    {
      StepKeeps(t.rows[i], c, t.nextId);
    }
  }

  lemma StepKeeps(r: Row, c: Change, nextId: nat)
    requires RowInv(r, nextId)
    ensures RowInv(Step(c, r), nextId)
    ensures Step(c, r).id == r.id && Step(c, r).filename == r.filename && Step(c, r).url == r.url
  {
  }

  /** A decision is about a row of the table, as it was at some time before. */
  ghost predicate Stands(t: Table, d: Decision) {
    if d.Insert? then d.row == NewRow(t.nextId,
                      Sighting(d.row.filename, d.row.url, d.row.cameraFolder, d.row.capturedAt, d.row.isVideo))
    else exists r :: r in t.rows && r.id == d.row.id
  }

  /** What a rewrite does to the keys. */
  lemma RewrittenKeys(d: Decision, r: Row, nextId: nat)
    requires !d.Insert? && RowInv(r, nextId)
    ensures RowInv(Rewritten(d, r), nextId) && Rewritten(d, r).id == r.id
    ensures Rewritten(d, r).url == if d.Rebind? then d.url else r.url
    ensures Rewritten(d, r).filename == if d.Reuse? then d.filename else r.filename
  {
  }

  lemma RewriteKeepsInv(t: Table, d: Decision)
    requires TableInv(t) && !d.Insert? && !Collides(t, d)
    ensures TableInv(t.(rows := Rewrite(t.rows, d)))
  {
    hide Rewritten;
    var u := Rewrite(t.rows, d);
    forall i | 0 <= i < |u|
      ensures RowInv(u[i], t.nextId) && u[i].id == t.rows[i].id && t.rows[i] in t.rows
      ensures u[i].url == if t.rows[i].id == d.row.id && d.Rebind? then d.url else t.rows[i].url
      ensures u[i].filename == if t.rows[i].id == d.row.id && d.Reuse? then d.filename else t.rows[i].filename
    {
      RewrittenKeys(d, t.rows[i], t.nextId);
    }
  }

  /** Whatever has happened since the lookups, the write keeps both keys unique: where
      it would not, the index rejects it and nothing changes. */
  lemma WriteKeepsInv(t: Table, d: Decision)
    requires TableInv(t) && Stands(t, d)
    ensures TableInv(Write(t, d)) && Extends(t, Write(t, d))
  {
    hide Rewritten;
    if !Collides(t, d) && !d.Insert? {
      RewriteKeepsInv(t, d);
      forall i | 0 <= i < |t.rows|
        ensures Rewrite(t.rows, d)[i].id == t.rows[i].id
      {
        RewrittenKeys(d, t.rows[i], t.nextId);
      }
    } else if d.Insert? {
      hide TableInv;
      if !Collides(t, d) {
        InsertKeepsInv(t, d.row);
      }
    }
  }

  lemma InsertKeepsInv(t: Table, r: Row)
    requires TableInv(t) && r.id == t.nextId && r.status == Discovered
    requires forall q :: q in t.rows ==> q.url != r.url && q.filename != r.filename
    ensures TableInv(Table(t.rows + [r], t.nextId + 1))
  {
    var u := t.rows + [r];
    assert forall i :: 0 <= i < |t.rows| ==> u[i] == t.rows[i] && t.rows[i] in t.rows;
  }

  lemma DecisionStands(t: Table, s: Sighting)
    ensures Stands(t, Decide(t, s))
  {
  }

  /** The only write of an undisturbed FindOrCreate that can violate a unique index is
      the rename of a finished row whose URL the camera has reused, and it does so
      exactly when another row already has the new file name. */
  lemma OnlyReuseCollides(t: Table, s: Sighting)
    requires TableInv(t)
    ensures Collides(t, Decide(t, s)) <==>
            && Lookup(t.rows, Url(s.url)).Some?
            && Terminal(Lookup(t.rows, Url(s.url)).value.status)
            && Lookup(t.rows, Url(s.url)).value.filename != s.filename
            && Lookup(t.rows, Filename(s.filename)).Some?
  {
  }

  // ---- What a call achieves, proved ----

  lemma {:induction false} LookupUnique(rows: seq<Row>, k: Key, i: nat)
    requires UniqueKeys(rows) && i < |rows| && Has(rows[i], k)
    ensures Lookup(rows, k) == Some(rows[i])
  {
    if i > 0 {
      LookupUnique(rows[1..], k, i - 1);
    }
  }

  /** A write to one row of the table changes no other. */
  lemma RewritesOne(t: Table, d: Decision, i: nat)
    requires TableInv(t) && i < |t.rows| && !d.Insert? && d.row == t.rows[i]
    ensures Rewrite(t.rows, d) == t.rows[i := Rewritten(d, t.rows[i])]
  {
    hide Rewritten;
  }

  lemma ReuseCollides(t: Table, d: Decision, i: nat)
    requires TableInv(t) && i < |t.rows| && d.row == t.rows[i] && (d.Reuse? || d.Backfill? || d.Leave?)
    requires d.Reuse? ==> d.filename != t.rows[i].filename
    ensures Collides(t, d) <==> d.Reuse? && exists q :: q in t.rows && q.filename == d.filename
  {
    if d.Reuse? {
      forall q | q in t.rows && q.filename == d.filename
        ensures q.id != d.row.id
      {
        var j :| 0 <= j < |t.rows| && t.rows[j] == q;
      }
    }
  }

  lemma KnownDecided(t: Table, s: Sighting, i: nat)
    requires TableInv(t) && i < |t.rows| && t.rows[i].url == s.url
    ensures var r, d := t.rows[i], Decide(t, s);
            && d.row == r && (d.Reuse? || d.Backfill? || d.Leave?)
            && (d.Reuse? <==> r.filename != s.filename && (r.status == Done || r.status == Failed))
            && (d.Reuse? ==> d.filename == s.filename)
            && SeenAgain(r, s, Rewritten(d, r))
            && (d.Backfill? <==> !d.Reuse? && Rewritten(d, r) != r)
            && Returned(d, s) == Rewritten(d, r).(
                 capturedAt := if d.Backfill? && s.capturedAt.Some? then s.capturedAt else Rewritten(d, r).capturedAt,
                 cameraFolder := if d.Backfill? && s.folder != "" then s.folder else Rewritten(d, r).cameraFolder)
  {
    hide TableInv;
    LookupUnique(t.rows, Url(s.url), i) by { Uniquely(t); }
  }

  lemma SightingKnown(t: Table, s: Sighting, i: nat)
    requires TableInv(t) && i < |t.rows| && t.rows[i].url == s.url
    ensures var d := Decide(t, s);
            KnownUrl(t, s, i, Write(t, d), if Collides(t, d) then None else Some(Returned(d, s)),
                     !Collides(t, d) && (d.Insert? || d.Reuse?), d.Backfill?)
  {
    hide TableInv, Decide, Rewritten, Returned, Collides, SeenAgain, Rewrite;
    var d := Decide(t, s);
    KnownDecided(t, s, i);
    RewritesOne(t, d, i);
    ReuseCollides(t, d, i);
  }

  lemma SightingUnknown(t: Table, s: Sighting)
    requires TableInv(t) && forall r :: r in t.rows ==> r.url != s.url
    ensures var d := Decide(t, s);
            !Collides(t, d) && !d.Backfill? && !d.Reuse?
    ensures var d := Decide(t, s);
            forall i :: 0 <= i < |t.rows| && t.rows[i].filename == s.filename ==>
              d == Rebind(t.rows[i], s.url) && Write(t, d) == t.(rows := t.rows[i := t.rows[i].(url := s.url)])
  {
    hide TableInv;
    forall i | 0 <= i < |t.rows| && t.rows[i].filename == s.filename
      ensures Decide(t, s) == Rebind(t.rows[i], s.url)
      ensures Write(t, Decide(t, s)) == t.(rows := t.rows[i := t.rows[i].(url := s.url)])
    {
      LookupUnique(t.rows, Filename(s.filename), i) by { Uniquely(t); }
      RewritesOne(t, Decide(t, s), i);
    }
  }

  /** What every call does, by lookups in the tables before and after it. */
  lemma SightingAchieves(t: Table, s: Sighting)
    requires TableInv(t)
    ensures var d := Decide(t, s);
            Achieved(t, s, Write(t, d), if Collides(t, d) then None else Some(Returned(d, s)),
                     !Collides(t, d) && (d.Insert? || d.Reuse?), d.Backfill?)
  {
    hide TableInv, KnownUrl, Collides;
    forall i | 0 <= i < |t.rows| && t.rows[i].url == s.url
      ensures var d := Decide(t, s);
              KnownUrl(t, s, i, Write(t, d), if Collides(t, d) then None else Some(Returned(d, s)),
                       !Collides(t, d) && (d.Insert? || d.Reuse?), d.Backfill?)
    {
      SightingKnown(t, s, i);
    }
    if forall r :: r in t.rows ==> r.url != s.url {
      SightingUnknown(t, s);
    }
  }

  lemma Uniquely(t: Table)
    requires TableInv(t)
    ensures UniqueKeys(t.rows)
  {
  }

  // ---- The returned copy ----

  lemma StoredRow(t: Table, d: Decision, r: Row)
    requires TableInv(t) && !Collides(t, d) && (d.Insert? || d.row in t.rows) && Stands(t, d) && r.id == d.row.id
    ensures r in Write(t, d).rows <==> r == Rewritten(d, d.row)
  {
    hide Rewritten;
    var u := Write(t, d).rows;
    WriteKeepsInv(t, d);
    if d.Insert? {
      assert u[|t.rows|] == d.row;
      assert Rewritten(d, d.row) == d.row by { InsertRewrites(d); }
    } else {
      var i :| 0 <= i < |t.rows| && t.rows[i] == d.row;
      RewrittenKeys(d, d.row, t.nextId);
      assert u[i] == Rewritten(d, d.row);
    }
  }

  lemma InsertRewrites(d: Decision)
    requires d.Insert?
    ensures Rewritten(d, d.row) == d.row
  {
  }

  /** The copy FindOrCreate returns is the stored row, except when something else had to
      be filled in while a capture date or folder that differs from the camera's was
      already stored: the copy then shows the camera's, the row keeps its own. */
  lemma CopyIsStoredIff(t: Table, s: Sighting)
    requires TableInv(t) && !Collides(t, Decide(t, s))
    ensures var d := Decide(t, s);
            Returned(d, s) in Write(t, d).rows <==>
            !(&& d.Backfill?
              && (|| (s.capturedAt.Some? && d.row.capturedAt.Some? && s.capturedAt != d.row.capturedAt)
                  || (s.folder != "" && d.row.cameraFolder != "" && s.folder != d.row.cameraFolder)))
  {
    hide TableInv, Collides, Write;
    DecisionStands(t, s);
    StoredRow(t, Decide(t, s), Returned(Decide(t, s), s));
  }

  // ---- Repeated calls ----

  ghost function Call(t: Table, s: Sighting): Table {
    Write(t, Decide(t, s))
  }

  /** Another call would change nothing. */
  ghost predicate Settled(t: Table, s: Sighting) {
    Decide(t, s).Leave? || Collides(t, Decide(t, s))
  }

  lemma SettledMeansFixed(t: Table, s: Sighting)
    requires Settled(t, s)
    ensures Call(t, s) == t
  {
    var d := Decide(t, s);
    if d.Leave? {
      assert Rewrite(t.rows, d) == t.rows;
    }
  }

  /** The sighting matches the row by both keys, or the row is not free to be renamed. */
  ghost predicate Recognised(r: Row, s: Sighting) {
    r.url == s.url && (r.filename == s.filename || !Terminal(r.status))
  }

  lemma RecognisedDecides(t: Table, s: Sighting, i: nat)
    requires TableInv(t) && i < |t.rows| && Recognised(t.rows[i], s)
    ensures Decide(t, s).row == t.rows[i] && (Decide(t, s).Leave? || Decide(t, s).Backfill?)
  {
    LookupUnique(t.rows, Url(s.url), i);
  }

  lemma BackfillSettles(t: Table, s: Sighting, i: nat)
    requires TableInv(t) && i < |t.rows| && Recognised(t.rows[i], s)
    ensures Settled(Call(t, s), s)
  {
    hide TableInv;
    RecognisedDecides(t, s, i);
    DecisionStands(t, s);
    WriteKeepsInv(t, Decide(t, s));
    var u := Call(t, s);
    assert u.rows[i] == Rewritten(Decide(t, s), t.rows[i]);
    RecognisedDecides(u, s, i);
    LookupUnique(t.rows, Url(s.url), i) by { Uniquely(t); }
    LookupUnique(u.rows, Url(s.url), i) by { Uniquely(u); }
  }

  /** Repeating a call of FindOrCreate reaches a table that further calls leave alone
      after two calls at the latest. */
  lemma SettlesAfterTwo(t: Table, s: Sighting)
    requires TableInv(t)
    ensures Call(Call(Call(t, s), s), s) == Call(Call(t, s), s)
  {
    hide Decide, Rewritten, Collides, Write;
    var u := Call(t, s);
    DecisionStands(t, s);
    WriteKeepsInv(t, Decide(t, s));
    if Settled(t, s) {
      SettledMeansFixed(t, s);
    } else {
      var i := RecognisedAfterwards(t, s);
      BackfillSettles(u, s, i);
      SettledMeansFixed(Call(u, s), s);
    }
  }

  lemma RecognisedAfterwards(t: Table, s: Sighting) returns (i: nat)
    requires TableInv(t) && !Settled(t, s)
    ensures i < |Call(t, s).rows| && Recognised(Call(t, s).rows[i], s)
  {
    hide TableInv, Collides, Recognised, Rewritten, Decide;
    var d := Decide(t, s);
    if d.Insert? {
      i := |t.rows|;
      assert Recognised(d.row, s) by { DecidedRow(t, s); }
    } else {
      DecidedRow(t, s);
      i :| 0 <= i < |t.rows| && t.rows[i] == d.row;
      assert Call(t, s).rows[i] == Rewritten(d, d.row);
    }
  }

  /** What is decided makes the row recognise the sighting. */
  lemma DecidedRow(t: Table, s: Sighting)
    ensures var d := Decide(t, s);
            if d.Insert? then Recognised(d.row, s) else d.row in t.rows && Recognised(Rewritten(d, d.row), s)
  {
  }

  // ---- Runs ----

  datatype Operation = Statement(change: Change) | Sight(sighting: Sighting)

  ghost function RunTable(ops: seq<Operation>): Table {
    if ops == [] then EMPTY_TABLE
    else
      var t := RunTable(ops[..|ops| - 1]);
      match ops[|ops| - 1]
      case Statement(c) => t.(rows := Apply(t.rows, c))
      case Sight(s) => Call(t, s)
  }

  /** Every run of FindOrCreate and the status statements keeps both keys unique, removes
      no row, and leaves no retry time on a finished row. */
  lemma {:induction false} RunsKeepTable(ops: seq<Operation>, n: nat)
    requires n <= |ops|
    ensures TableInv(RunTable(ops)) && Extends(RunTable(ops[..n]), RunTable(ops))
  {
    hide TableInv, Call, Apply;
    if n == |ops| {
      assert ops[..n] == ops;
    }
    if ops == [] {
      assert TableInv(EMPTY_TABLE) by { EmptyTable(); }
    } else {
      var m := |ops| - 1;
      var before := ops[..m];
      RunsKeepTable(before, if n <= m then n else m);
      var t := RunTable(before);
      match ops[m] {
        case Statement(c) => ChangeKeepsInv(t, c);
        case Sight(s) => CallKeepsInv(t, s);
      }
      if n <= m {
        assert before[..n] == ops[..n];
      }
    }
  }

  lemma EmptyTable()
    ensures TableInv(EMPTY_TABLE)
  {
  }

  lemma CallKeepsInv(t: Table, s: Sighting)
    requires TableInv(t)
    ensures TableInv(Call(t, s)) && Extends(t, Call(t, s))
  {
    DecisionStands(t, s);
    WriteKeepsInv(t, Decide(t, s));
  }
}
