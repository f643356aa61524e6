/** What the processes of the machine do when nobody interrupts them: the calls, rounds and
    outcomes of internal/pipeline/pipeline.go from beginning to end. */
module Alone {
  import opened Bytes
  import opened ImageTable
  import opened Gate
  import opened Pipeline
  import opened Startup

  // ---- What the lists are ----

  /** The images of the queued rows that have never failed, or of those that have and whose
      time has come. */
  ghost predicate Listed(rows: seq<Row>, ready: bool, now: int, m: Image) {
    exists r :: r in rows && r.status == Queued && m == Image(r.filename, r.url)
                && if ready then r.retryCount > 0 && (r.nextRetryAt.Some? ==> r.nextRetryAt.value <= now)
                   else r.retryCount == 0
  }

  lemma {:induction false} ListsRows(rows: seq<Row>, ready: bool, now: int, m: Image)
    ensures m in ImagesOf(rows, ready, now) <==> Listed(rows, ready, now, m)
  {
    if rows != [] {
      ListsRows(rows[1..], ready, now, m);
      assert rows == [rows[0]] + rows[1..];
      var chosen := if ready then IsReady(rows[0], now) else IsFresh(rows[0]);
      var first := Image(rows[0].filename, rows[0].url);
      assert m in ImagesOf(rows, ready, now) <==> m in ImagesOf(rows[1..], ready, now) || (chosen && m == first);
    }
  }

  lemma ListFirst(rows: seq<Row>, ready: bool, now: int) returns (first: seq<Image>)
    requires rows != []
    ensures ImagesOf([rows[0]], ready, now) == first
    ensures ImagesOf(rows, ready, now) == first + ImagesOf(rows[1..], ready, now)
  {
    hide IsFresh, IsReady;
    first := if (if ready then IsReady(rows[0], now) else IsFresh(rows[0]))
             then [Image(rows[0].filename, rows[0].url)] else [];
    assert [rows[0]][1..] == [] && ImagesOf([], ready, now) == [];
    assert first + [] == first;
  }

  /** The lists are in table order. */
  lemma {:induction false} ListsInOrder(rows: seq<Row>, more: seq<Row>, ready: bool, now: int)
    ensures ImagesOf(rows + more, ready, now) == ImagesOf(rows, ready, now) + ImagesOf(more, ready, now)
  {
    if rows == [] {
      assert rows + more == more && [] + ImagesOf(more, ready, now) == ImagesOf(more, ready, now);
    } else {
      hide ImagesOf;
      assert (rows + more)[0] == rows[0] && (rows + more)[1..] == rows[1..] + more;
      var f := ListFirst(rows, ready, now);
      var g := ListFirst(rows + more, ready, now);
      ListsInOrder(rows[1..], more, ready, now);
      assert f + (ImagesOf(rows[1..], ready, now) + ImagesOf(more, ready, now))
          == f + ImagesOf(rows[1..], ready, now) + ImagesOf(more, ready, now);
    }
  }

  /** The retry count is that of the row with the image's file name. */
  lemma RetriesOfRow(rows: seq<Row>, i: nat)
    requires UniqueKeys(rows) && i < |rows|
    ensures RetriesOf(rows, rows[i].filename) == rows[i].retryCount
  {
    LookupUnique(rows, Filename(rows[i].filename), i);
  }

  // ---- Runs of one process ----

  /** Process `p` advances, and the rest of the run follows. */
  lemma Advancing(s: State, p: nat, t: State, rest: seq<Action>, u: State)
    requires p in s.procs && CanAdvance(s, s.procs[p]) && Advanced(s, p, s.procs[p]) == t && Leads(t, rest, u)
    ensures Leads(s, [Advance(p)] + rest, u)
  {
    hide Advanced, CanAdvance, Leads;
    OneStep(s, Advance(p), rest, u);
  }

  lemma GoAgain(s: State, p: nat, a: Pc, b: Pc)
    ensures Go(Go(s, p, a), p, b) == Go(s, p, b)
  {
    assert s.procs[p := a][p := b] == s.procs[p := b];
  }

  // ---- Queue ----

  lemma {:induction false} MarkingAlone(s: State, p: nat, imgs: seq<Image>) returns (actions: seq<Action>)
    requires p in s.procs && s.procs[p] == Pushing(QSetQueued(imgs))
    ensures Leads(s, actions, Go(s.(table := s.table.(rows := StatusOfAll(s.table.rows, imgs, Queued))), p, Returned))
    decreases |imgs|
  {
    hide Leads, Apply;
    var end := Go(s.(table := s.table.(rows := StatusOfAll(s.table.rows, imgs, Queued))), p, Returned);
    if imgs == [] {
      NoSteps(end);
      Advancing(s, p, end, [], end);
      actions := [Advance(p)] + [];
    } else {
      var t := Go(Sql(s, SetStatus(imgs[0].url, Queued, "")), p, Pushing(QSetQueued(imgs[1..])));
      var rest := MarkingAlone(t, p, imgs[1..]);
      GoAgain(Sql(s, SetStatus(imgs[0].url, Queued, "")), p, Pushing(QSetQueued(imgs[1..])), Returned);
      assert t.procs[p := Returned] == s.procs[p := Returned];
      Advancing(s, p, t, rest, end);
      actions := [Advance(p)] + rest;
    }
  }

  /** A call of Queue that nobody interrupts: while paused it only marks its images' rows
      queued, otherwise it puts the images into the channel. */
  lemma QueueCall(s: State, p: nat, imgs: seq<Image>) returns (actions: seq<Action>)
    requires p in s.procs && s.procs[p] == Pushing(QIsPaused(imgs))
    ensures var d := Enqueued(Channel(s.pushCh, s.inChannel), imgs);
            var marked := StatusOfAll(s.table.rows, imgs, Queued);
            Leads(s, actions, Go(if s.gates.paused then s.(table := s.table.(rows := marked))
                                 else s.(pushCh := d.pushCh, inChannel := d.inChannel), p, Returned))
  {
    hide Leads, StatusOfAll, Enqueued;
    if s.gates.paused {
      var t := Go(s, p, Pushing(QSetQueued(imgs)));
      var rest := MarkingAlone(t, p, imgs);
      var marked := s.(table := s.table.(rows := StatusOfAll(s.table.rows, imgs, Queued)));
      assert t.procs[p := Returned] == s.procs[p := Returned];
      Advancing(s, p, t, rest, Go(marked, p, Returned));
      actions := [Advance(p)] + rest;
    } else {
      var t := Go(s, p, Pushing(QReserve(imgs, false)));
      var rest := QueueAlone(t, p, imgs, false);
      var d := Enqueued(Channel(s.pushCh, s.inChannel), imgs);
      assert t.procs[p := Returned] == s.procs[p := Returned];
      Advancing(s, p, t, rest, Go(s.(pushCh := d.pushCh, inChannel := d.inChannel), p, Returned));
      actions := [Advance(p)] + rest;
    }
  }

  // ---- ClearQueue ----

  /** One image drained. */
  lemma DrainFirst(s: State, p: nat) returns (actions: seq<Action>, t: State)
    requires p in s.procs && s.procs[p] == Doing(CReceive) && s.pushCh != []
    ensures Leads(s, actions, t)
    ensures var img := s.pushCh[0];
            t == Go(Sql(s.(pushCh := s.pushCh[1..], inChannel := s.inChannel - {img.url}),
                        SetStatus(img.url, Discovered, "")), p, Doing(CReceive))
  {
    hide Leads, Apply;
    var img := s.pushCh[0];
    var s1 := Go(s.(pushCh := s.pushCh[1..]), p, Doing(CUnreserve(img)));
    var s2 := Go(s1.(inChannel := s.inChannel - {img.url}), p, Doing(CSetDiscovered(img)));
    t := Go(Sql(s2, SetStatus(img.url, Discovered, "")), p, Doing(CReceive));
    assert t.procs == s.procs[p := Doing(CReceive)];
    NoSteps(t);
    Advancing(s2, p, t, [], t);
    Advancing(s1, p, s2, [Advance(p)] + [], t);
    Advancing(s, p, s1, [Advance(p)] + ([Advance(p)] + []), t);
    actions := [Advance(p)] + ([Advance(p)] + ([Advance(p)] + []));
  }

  lemma {:induction false} DrainingAlone(s: State, p: nat) returns (actions: seq<Action>)
    requires p in s.procs && s.procs[p] == Doing(CReceive) && ChannelInv(Channel(s.pushCh, s.inChannel))
    ensures var drained := StatusOfAll(s.table.rows, s.pushCh, Discovered);
            Leads(s, actions, Go(s.(pushCh := [], inChannel := {}, table := s.table.(rows := drained)), p, Returned))
    decreases |s.pushCh|
  {
    hide Leads, Apply;
    var drained := StatusOfAll(s.table.rows, s.pushCh, Discovered);
    var end := Go(s.(pushCh := [], inChannel := {}, table := s.table.(rows := drained)), p, Returned);
    if s.pushCh == [] {
      NoSteps(end);
      Advancing(s, p, end, [], end);
      actions := [Advance(p)] + [];
    } else {
      var first, t := DrainFirst(s, p);
      FirstUrl(s.pushCh);
      var rest := DrainingAlone(t, p);
      assert t.procs[p := Returned] == s.procs[p := Returned];
      Concatenated(s, first, t, rest, end);
      actions := first + rest;
    }
  }

  /** A call of ClearQueue that nobody interrupts does what the method does. */
  lemma ClearCall(s: State, p: nat) returns (actions: seq<Action>)
    requires p in s.procs && s.procs[p] == Doing(CReset) && ChannelInv(Channel(s.pushCh, s.inChannel))
    ensures var cleared := StatusOfAll(Apply(s.table.rows, ResetQueued), s.pushCh, Discovered);
            Leads(s, actions, Go(s.(pushCh := [], inChannel := {}, table := s.table.(rows := cleared)), p, Returned))
  {
    hide Leads, Apply, StatusOfAll, ChannelInv;
    var t := Go(Sql(s, ResetQueued), p, Doing(CReceive));
    var rest := DrainingAlone(t, p);
    var cleared := StatusOfAll(Apply(s.table.rows, ResetQueued), s.pushCh, Discovered);
    assert t.procs[p := Returned] == s.procs[p := Returned];
    Advancing(s, p, t, rest, Go(s.(pushCh := [], inChannel := {}, table := s.table.(rows := cleared)), p, Returned));
    actions := [Advance(p)] + rest;
  }

  // ---- A round of the scheduler ----

  /** A round of the retry scheduler that nobody interrupts, while the pipeline is not paused:
      the fresh rows, and then those ready for a retry, go through the same queueing. */
  lemma RoundAlone(s: State, p: nat) returns (actions: seq<Action>)
    requires GatesInv(s.gates) && !s.gates.paused && p in s.procs && s.procs[p] == Pushing(SGate)
    ensures var due := ImagesOf(s.table.rows, false, s.now) + ImagesOf(s.table.rows, true, s.now);
            var d := Enqueued(Channel(s.pushCh, s.inChannel), due);
            Leads(s, actions, s.(pushCh := d.pushCh, inChannel := d.inChannel))
  {
    hide Leads, Enqueued, ImagesOf;
    var fresher := ImagesOf(s.table.rows, false, s.now);
    var due := fresher + ImagesOf(s.table.rows, true, s.now);
    var d := Enqueued(Channel(s.pushCh, s.inChannel), due);
    var s1, s2 := Go(s, p, Pushing(SWait(s.gates.current))), Go(s, p, Pushing(SListFresh));
    var s3, s4 := Go(s, p, Pushing(SListReady(fresher))), Go(s, p, Pushing(QReserve(due, true)));
    var rest := QueueAlone(s4, p, due, true);
    var end := s.(pushCh := d.pushCh, inChannel := d.inChannel);
    assert s4.procs[p := Pushing(SGate)] == s.procs;
    GoAgain(s, p, Pushing(SWait(s.gates.current)), Pushing(SListFresh));
    GoAgain(s, p, Pushing(SListFresh), Pushing(SListReady(fresher)));
    GoAgain(s, p, Pushing(SListReady(fresher)), Pushing(QReserve(due, true)));
    Advancing(s3, p, s4, rest, end);
    Advancing(s2, p, s3, [Advance(p)] + rest, end);
    Advancing(s1, p, s2, [Advance(p)] + ([Advance(p)] + rest), end);
    Advancing(s, p, s1, [Advance(p)] + ([Advance(p)] + ([Advance(p)] + rest)), end);
    actions := [Advance(p)] + ([Advance(p)] + ([Advance(p)] + ([Advance(p)] + rest)));
  }

  // ---- What becomes of an image that is not uploaded ----

  /** The state in which `p` has given up the image at the head of the channel. */
  function PutBack(s: State, p: nat, message: string, pc: Pc): State
    requires s.pushCh != []
  {
    var img := s.pushCh[0];
    Go(Sql(s.(pushCh := s.pushCh[1..], inChannel := s.inChannel - {img.url}),
           SetStatus(img.url, Queued, message)), p, pc)
  }

  /** A worker takes the head of the channel. */
  lemma TakesHead(s: State, p: nat, t: State, rest: seq<Action>, u: State)
    requires p in s.procs && s.procs[p] == Working(WReceive) && s.pushCh != []
    requires var img := s.pushCh[0];
             t == Go(s.(pushCh := s.pushCh[1..], inChannel := s.inChannel - {img.url}), p, Working(WIsPaused(img)))
    requires Leads(t, rest, u)
    ensures Leads(s, [Advance(p)] + ([Advance(p)] + rest), u)
  {
    hide Leads;
    var img := s.pushCh[0];
    var s1 := Go(s.(pushCh := s.pushCh[1..]), p, Working(WUnreserve(img)));
    assert s1.procs[p := Working(WIsPaused(img))] == t.procs;
    Advancing(s1, p, t, rest, u);
    Advancing(s, p, s1, [Advance(p)] + rest, u);
  }

  /** A worker that was waiting for images when the pipeline was paused puts the one it
      takes back: its row is queued, not uploading, and the channel no longer has it. */
  lemma PausedPutsBack(s: State, p: nat) returns (actions: seq<Action>)
    requires s.gates.paused && p in s.procs && s.procs[p] == Working(WReceive) && s.pushCh != []
    ensures Leads(s, actions, PutBack(s, p, "paused", Working(WGate)))
  {
    hide Leads, Apply;
    var img := s.pushCh[0];
    var end := PutBack(s, p, "paused", Working(WGate));
    var taken := s.(pushCh := s.pushCh[1..], inChannel := s.inChannel - {img.url});
    var s2, s3 := Go(taken, p, Working(WIsPaused(img))), Go(taken, p, Working(WSetPaused(img)));
    GoAgain(taken, p, Working(WIsPaused(img)), Working(WSetPaused(img)));
    assert s3.procs[p := Working(WGate)] == end.procs;
    NoSteps(end);
    Advancing(s3, p, end, [], end);
    Advancing(s2, p, s3, [Advance(p)] + [], end);
    TakesHead(s, p, s2, [Advance(p)] + ([Advance(p)] + []), end);
    actions := [Advance(p)] + ([Advance(p)] + ([Advance(p)] + ([Advance(p)] + [])));
  }

  /** A worker whose context is cancelled while it waits with an image puts it back and
      ends. */
  lemma CancelledAtGate(s: State, p: nat, img: Image, gate: nat)
    requires s.cancelled && p in s.procs && s.procs[p] == Working(WRewait(img, gate))
    ensures Leads(s, [Stop(p)] + ([Advance(p)] + []),
                  Go(Sql(s, SetStatus(img.url, Queued, "context cancelled")), p, Returned))
  {
    hide Leads, Apply;
    var s1 := Go(s, p, Working(WSetCancelled(img)));
    var end := Go(Sql(s, SetStatus(img.url, Queued, "context cancelled")), p, Returned);
    GoAgain(s, p, Working(WSetCancelled(img)), Returned);
    assert s1.procs[p := Returned] == end.procs;
    NoSteps(end);
    Advancing(s1, p, end, [], end);
    OneStep(s, Stop(p), [Advance(p)] + [], end);
  }

  /** One that finds its context cancelled before the transfer puts the image back, too. */
  lemma CancelledBefore(s: State, p: nat, img: Image)
    requires s.cancelled && p in s.procs && s.procs[p] == Working(WContext(img))
    ensures Leads(s, [Advance(p)] + ([Advance(p)] + []),
                  Go(Sql(s, SetStatus(img.url, Queued, "context cancelled")), p, Working(WGate)))
  {
    hide Leads, Apply;
    var s1 := Go(s, p, Working(WSetAborted(img)));
    var end := Go(Sql(s, SetStatus(img.url, Queued, "context cancelled")), p, Working(WGate));
    assert s1.procs[p := Working(WGate)] == end.procs;
    NoSteps(end);
    Advancing(s1, p, end, [], end);
    Advancing(s, p, s1, [Advance(p)] + [], end);
  }

  /** What a failed transfer does to the row: the first three times it is queued again, for
      5, 10 and 20 seconds later, and afterwards it is failed. */
  ghost predicate AfterFailure(r: Row, after: Row, retries: nat, now: int) {
    if retries < 3 then
      var wait := [5, 10, 20][retries];
      && after == r.(status := Queued, retryCount := retries + 1, nextRetryAt := Some(now + wait),
                     lastError := "transfer failed")
      && !IsFresh(after) && forall later :: IsReady(after, later) <==> later >= now + wait
    else after == r.(status := Failed, lastError := "transfer failed", nextRetryAt := None)
  }

  /** The statement by which the worker records a failure. */
  function Recorded(img: Image, retries: nat, now: int): Change {
    if retries < 3 then SetRetryQueued(img.url, retries + 1, now + RetryBackoff(retries + 1), "transfer failed")
    else SetStatus(img.url, Failed, "transfer failed")
  }

  lemma FailedRow(r: Row, img: Image, retries: nat, now: int)
    ensures if r.url == img.url then AfterFailure(r, Step(Recorded(img, retries, now), r), retries, now)
            else Step(Recorded(img, retries, now), r) == r
  {
    hide RetryBackoff;
  }

  /** A transfer that fails, up to the worker's next turn: the rows of the image, and no
      others, are queued for a later retry or failed. */
  lemma FailureAlone(s: State, p: nat, img: Image, retries: nat) returns (t: State)
    requires p in s.procs && s.procs[p] == Working(WTransfer(img, retries))
    ensures Leads(s, [Fail(p)] + ([Advance(p)] + ([Advance(p)] + [])), t)
    ensures t == Go(s.(table := t.table, lastFailure := if retries < 3 then s.now else s.lastFailure), p,
                    Working(WGate))
    ensures t.table.nextId == s.table.nextId && |t.table.rows| == |s.table.rows|
    ensures forall i :: 0 <= i < |s.table.rows| ==>
              if s.table.rows[i].url == img.url then AfterFailure(s.table.rows[i], t.table.rows[i], retries, s.now)
              else t.table.rows[i] == s.table.rows[i]
  {
    hide Leads, RetryBackoff, AfterFailure, Step, Recorded;
    t := FailureRun(s, p, img, retries);
    forall i | 0 <= i < |s.table.rows|
      ensures if s.table.rows[i].url == img.url then AfterFailure(s.table.rows[i], t.table.rows[i], retries, s.now)
              else t.table.rows[i] == s.table.rows[i]
    {
      FailedRow(s.table.rows[i], img, retries, s.now);
    }
  }

  lemma RecordsRetry(s: State, p: nat, img: Image, retries: nat, t: State)
    requires p in s.procs && s.procs[p] == Working(WHandleFailure(img, retries)) && retries < 3
    requires t == Go(Sql(s.(lastFailure := s.now), Recorded(img, retries, s.now)), p, Working(WGate))
    ensures Leads(s, [Advance(p)] + ([Advance(p)] + []), t)
  {
    hide Leads, RetryBackoff, Apply;
    var at := s.now + RetryBackoff(retries + 1);
    var noted := s.(lastFailure := s.now);
    var s2 := Go(noted, p, Working(WSetRetry(img, retries + 1, at)));
    assert Advanced(s2, p, Working(WSetRetry(img, retries + 1, at))) == t by {
      GoAgain(noted, p, Working(WSetRetry(img, retries + 1, at)), Working(WGate));
    }
    NoSteps(t);
    Advancing(s2, p, t, [], t);
    Advancing(s, p, s2, [Advance(p)] + [], t);
  }

  lemma RecordsEnd(s: State, p: nat, img: Image, retries: nat, t: State)
    requires p in s.procs && s.procs[p] == Working(WHandleFailure(img, retries)) && retries >= 3
    requires t == Go(Sql(s, Recorded(img, retries, s.now)), p, Working(WGate))
    ensures Leads(s, [Advance(p)] + ([Advance(p)] + []), t)
  {
    hide Leads, RetryBackoff, Apply;
    var s2 := Go(s, p, Working(WSetFailed(img)));
    assert Advanced(s2, p, Working(WSetFailed(img))) == t by {
      GoAgain(s, p, Working(WSetFailed(img)), Working(WGate));
    }
    NoSteps(t);
    Advancing(s2, p, t, [], t);
    Advancing(s, p, s2, [Advance(p)] + [], t);
  }

  lemma FailureRun(s: State, p: nat, img: Image, retries: nat) returns (t: State)
    requires p in s.procs && s.procs[p] == Working(WTransfer(img, retries))
    ensures Leads(s, [Fail(p)] + ([Advance(p)] + ([Advance(p)] + [])), t)
    ensures t == Go(Sql(if retries < 3 then s.(lastFailure := s.now) else s, Recorded(img, retries, s.now)), p,
                    Working(WGate))
  {
    hide Leads, RetryBackoff, Apply, Recorded;
    var s1 := Go(s, p, Working(WHandleFailure(img, retries)));
    t := Go(Sql(if retries < 3 then s.(lastFailure := s.now) else s, Recorded(img, retries, s.now)), p, Working(WGate));
    assert s1.procs[p := Working(WGate)] == t.procs;
    if retries < 3 {
      RecordsRetry(s1, p, img, retries, t);
    } else {
      RecordsEnd(s1, p, img, retries, t);
    }
    OneStep(s, Fail(p), [Advance(p)] + ([Advance(p)] + []), t);
  }
}
