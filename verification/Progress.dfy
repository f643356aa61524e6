/** Upload progress: the counters of internal/store/store.go and the counting reader of
    internal/pipeline/pipeline.go that feeds them. */
module Progress {
  datatype Entry = Entry(uploaded: nat, total: nat)

  datatype Operation = Set(url: string, total: nat) | Update(url: string, delta: nat) | Clear(url: string)

  /** Tenths of the upload that are done. */
  function Tenths(e: Entry): nat
    requires e.total > 0
  {
    e.uploaded * 10 / e.total
  }

  function Advanced(e: Entry, delta: nat): Entry {
    e.(uploaded := e.uploaded + delta)
  }

  function Tracked(m: map<string, Entry>, op: Operation): map<string, Entry> {
    match op
    case Set(url, total) => m[url := Entry(0, total)]
    case Update(url, delta) => if url in m then m[url := Advanced(m[url], delta)] else m
    case Clear(url) => m - {url}
  }

  /** The update changes how many tenths are done. */
  predicate Notifies(m: map<string, Entry>, op: Operation) {
    op.Update? && op.url in m && m[op.url].total > 0 && Tenths(Advanced(m[op.url], op.delta)) != Tenths(m[op.url])
  }

  /** `k` tenths of the total, or more, have been uploaded. */
  predicate Reached(k: nat, uploaded: nat, total: nat) {
    k * total <= uploaded * 10
  }

  /** The number of tenths changes exactly when a further tenth is reached. */
  lemma NewTenth(before: nat, delta: nat, total: nat)
    ensures total > 0 ==>
              (before * 10 / total != (before + delta) * 10 / total
               <==> exists k :: Reached(k, before + delta, total) && !Reached(k, before, total))
  {
    if total > 0 {
      var after := before + delta;
      var p, q := before * 10 / total, after * 10 / total;
      TenthsReached(before, total);
      TenthsReached(after, total);
      Monotone(before, after, total);
      if p != q {
        assert Reached(q, after, total) && !Reached(q, before, total);
      }
    }
  }

  lemma TenthsReached(uploaded: nat, total: nat)
    requires total > 0
    ensures forall k: nat :: Reached(k, uploaded, total) <==> k <= uploaded * 10 / total
  {
    var q := uploaded * 10 / total;
    assert total * q <= uploaded * 10 < total * q + total == total * (q + 1);
    forall k: nat
      ensures Reached(k, uploaded, total) <==> k <= q
    {
      Multiples(total, k, q);
      Multiples(total, q + 1, k);
    }
  }

  class Store {
    var progress: map<string, Entry>

    constructor ()
      ensures progress == map[]
    {
      progress := map[];
    }

    method SetProgress(url: string, total: nat)
      modifies this
      ensures progress == Tracked(old(progress), Set(url, total))
      ensures progress == old(progress)[url := Entry(0, total)]
    {
      progress := progress[url := Entry(0, total)];
    }

    method UpdateProgress(url: string, delta: nat) returns (notified: bool)
      modifies this
      ensures progress == Tracked(old(progress), Update(url, delta))
      ensures notified == Notifies(old(progress), Update(url, delta))
      ensures if url !in old(progress) then progress == old(progress) && !notified
              else
                var before, after := old(progress)[url].uploaded, old(progress)[url].uploaded + delta;
                var total := old(progress)[url].total;
                && progress == old(progress)[url := Entry(after, total)]
                && (notified <==> total > 0 && exists k :: Reached(k, after, total) && !Reached(k, before, total))
    {
      notified := false;
      if url in progress {
        NewTenth(progress[url].uploaded, delta, progress[url].total);
        var prev, total := progress[url].uploaded, progress[url].total;
        progress := progress[url := Entry(prev + delta, total)];
        if total > 0 {
          notified := (prev + delta) * 10 / total != prev * 10 / total;
        }
      }
    }

    method ClearProgress(url: string)
      modifies this
      ensures progress == Tracked(old(progress), Clear(url))
      ensures forall u :: u in progress <==> u in old(progress) && u != url
      ensures forall u :: u in progress ==> progress[u] == old(progress)[u]
    {
      progress := progress - {url};
    }

    /** processImage's upload of `total` bytes, which the backend reads into buffers of the
        given sizes; every read that returns bytes is counted. */
    method Upload(url: string, total: nat, sizes: seq<nat>) returns (notices: nat)
      modifies this
      ensures var ops := [Set(url, total)] + Reads(url, total, sizes);
              progress == Run(old(progress), ops) && notices == Notices(old(progress), ops, url)
    {
      hide Tracked, Notifies, Run, Notices, Reads;
      ghost var before := progress;
      ghost var ops := [Set(url, total)] + Reads(url, total, sizes);
      RunFrom(before, Set(url, total), Reads(url, total, sizes), url);
      OnlyUpdatesNotify(before, Set(url, total));
      SetProgress(url, total);
      notices := 0;
      var remaining, i := total, 0;
      assert sizes[0..] == sizes;
      while i < |sizes|
        invariant i <= |sizes|
        invariant Run(progress, Reads(url, remaining, sizes[i..])) == Run(before, ops)
        invariant notices + Notices(progress, Reads(url, remaining, sizes[i..]), url) == Notices(before, ops, url)
      {
        var n := Least(sizes[i], remaining);
        ReadsNext(url, remaining, sizes[i..]);
        assert sizes[i..][1..] == sizes[i + 1..];
        RunFrom(progress, Update(url, n), Reads(url, remaining - n, sizes[i + 1..]), url);
        if n > 0 {
          var notified := UpdateProgress(url, n);
          if notified {
            notices := notices + 1;
          }
        }
        remaining := remaining - n;
        i := i + 1;
      }
      assert sizes[i..] == [];
      NothingRun(progress, url, remaining);
    }

    /** The upload and the end of its tracking, whether it has gone through or not. */
    method TrackUpload(url: string, total: nat, sizes: seq<nat>) returns (notices: nat)
      modifies this
      ensures progress == old(progress) - {url}
    {
      UploadStays(progress, url, total, sizes);
      notices := Upload(url, total, sizes);
      ClearProgress(url);
    }
  }

  /** Operations on one URL leave the entries of the others alone. */
  lemma {:induction false} OthersStay(m: map<string, Entry>, ops: seq<Operation>, url: string)
    requires forall op :: op in ops ==> op.url == url
    ensures Run(m, ops) - {url} == m - {url}
    decreases |ops|
  {
    if ops != [] {
      assert ops[0] in ops;
      assert Tracked(m, ops[0]) - {url} == m - {url};
      OthersStay(Tracked(m, ops[0]), ops[1..], url);
    }
  }

  lemma UploadStays(m: map<string, Entry>, url: string, total: nat, sizes: seq<nat>)
    ensures Run(m, [Set(url, total)] + Reads(url, total, sizes)) - {url} == m - {url}
  {
    ReadsUpdate(url, total, sizes);
    OthersStay(m, [Set(url, total)] + Reads(url, total, sizes), url);
  }

  lemma NothingRun(m: map<string, Entry>, url: string, remaining: nat)
    ensures Reads(url, remaining, []) == [] && Run(m, []) == m && Notices(m, [], url) == 0
  {
  }

  lemma OnlyUpdatesNotify(m: map<string, Entry>, op: Operation)
    requires !op.Update?
    ensures !Notifies(m, op)
  {
  }

  function Least(a: nat, b: nat): nat {
    if a < b then a else b
  }

  /** The updates that reading `remaining` bytes with these buffers makes. */
  function Reads(url: string, remaining: nat, sizes: seq<nat>): seq<Operation> {
    if sizes == [] then []
    else
      var n := Least(sizes[0], remaining);
      (if n > 0 then [Update(url, n)] else []) + Reads(url, remaining - n, sizes[1..])
  }

  // ---- Runs ----

  lemma RunFrom(m: map<string, Entry>, op: Operation, ops: seq<Operation>, url: string)
    ensures Run(m, [op] + ops) == Run(Tracked(m, op), ops)
    ensures Notices(m, [op] + ops, url)
         == (if op.url == url && Notifies(m, op) then 1 else 0) + Notices(Tracked(m, op), ops, url)
  {
    hide Tracked, Notifies;
    assert ([op] + ops)[1..] == ops;
  }

  lemma BytesFrom(op: Operation, ops: seq<Operation>, url: string)
    ensures Bytes([op] + ops, url) == (if op.url == url && op.Update? then op.delta else 0) + Bytes(ops, url)
  {
    assert ([op] + ops)[1..] == ops;
  }

  lemma ReadsNext(url: string, remaining: nat, sizes: seq<nat>)
    requires sizes != []
    ensures var n := Least(sizes[0], remaining);
            var rest := Reads(url, remaining - n, sizes[1..]);
            Reads(url, remaining, sizes) == if n > 0 then [Update(url, n)] + rest else rest
  {
    var rest := Reads(url, remaining - Least(sizes[0], remaining), sizes[1..]);
    assert [] + rest == rest;
  }

  function Run(m: map<string, Entry>, ops: seq<Operation>): map<string, Entry>
    decreases |ops|
  {
    if ops == [] then m else Run(Tracked(m, ops[0]), ops[1..])
  }

  /** How often a run notifies about `url`. */
  function Notices(m: map<string, Entry>, ops: seq<Operation>, url: string): nat
    decreases |ops|
  {
    if ops == [] then 0
    else (if ops[0].url == url && Notifies(m, ops[0]) then 1 else 0) + Notices(Tracked(m, ops[0]), ops[1..], url)
  }

  /** The bytes a run counts for `url`. */
  function Bytes(ops: seq<Operation>, url: string): nat {
    if ops == [] then 0 else (if ops[0].url == url && ops[0].Update? then ops[0].delta else 0) + Bytes(ops[1..], url)
  }

  ghost predicate OnlyUpdates(ops: seq<Operation>, url: string) {
    forall op :: op in ops && op.url == url ==> op.Update?
  }

  lemma Multiples(t: nat, r: nat, p: nat)
    ensures r <= p ==> t * r <= t * p
  {
    if r <= p {
      assert t * p == t * r + t * (p - r);
    }
  }

  lemma Monotone(x: nat, y: nat, total: nat)
    requires x <= y && total > 0
    ensures x * 10 / total <= y * 10 / total
  {
    var p, q := x * 10 / total, y * 10 / total;
    Multiples(total, q + 1, p);
    assert total * p <= x * 10 && y * 10 < total * q + total == total * (q + 1);
  }

  /** Whatever other uploads do in between, the counter of an upload is what was read of
      it, and each notice is for a further tenth. */
  lemma {:induction false} CountsEveryByte(m: map<string, Entry>, ops: seq<Operation>, url: string)
    requires url in m && OnlyUpdates(ops, url)
    ensures var t, e := Run(m, ops), m[url];
            && url in t && t[url] == Advanced(e, Bytes(ops, url))
            && (e.total == 0 ==> Notices(m, ops, url) == 0)
            && (e.total > 0 ==> Notices(m, ops, url) + Tenths(e) <= Tenths(t[url]))
    decreases |ops|
  {
    hide Tenths;
    if ops != [] {
      var next := Tracked(m, ops[0]);
      assert OnlyUpdates(ops[1..], url);
      if ops[0].url == url {
        assert ops[0] in ops;
        if m[url].total > 0 {
          assert Tenths(m[url]) <= Tenths(next[url]) by { Further(m[url], ops[0].delta); }
        }
      }
      CountsEveryByte(next, ops[1..], url);
    }
  }

  lemma Further(e: Entry, delta: nat)
    requires e.total > 0
    ensures Tenths(e) <= Tenths(Advanced(e, delta))
  {
    Monotone(e.uploaded, e.uploaded + delta, e.total);
  }

  lemma {:induction false} ReadsUpdate(url: string, remaining: nat, sizes: seq<nat>)
    ensures forall op :: op in Reads(url, remaining, sizes) ==> op.Update? && op.url == url
  {
    if sizes != [] {
      ReadsUpdate(url, remaining - Least(sizes[0], remaining), sizes[1..]);
    }
  }

  lemma {:induction false} ReadsBytes(url: string, remaining: nat, sizes: seq<nat>)
    ensures Bytes(Reads(url, remaining, sizes), url) == Least(Sum(sizes), remaining)
  {
    hide Reads, Bytes;
    if sizes == [] {
      NothingRead(url, remaining);
    } else {
      var n := Least(sizes[0], remaining);
      var rest := Reads(url, remaining - n, sizes[1..]);
      ReadsBytes(url, remaining - n, sizes[1..]);
      assert Bytes(Reads(url, remaining, sizes), url) == n + Bytes(rest, url) by {
        ReadsNext(url, remaining, sizes);
        BytesFrom(Update(url, n), rest, url);
      }
    }
  }

  lemma NothingRead(url: string, remaining: nat)
    ensures Bytes(Reads(url, remaining, []), url) == 0
  {
  }

  function Sum(ns: seq<nat>): nat {
    if ns == [] then 0 else ns[0] + Sum(ns[1..])
  }

  /** `ops` is `mine` with operations on other URLs mixed in. */
  ghost predicate Interleaves(ops: seq<Operation>, mine: seq<Operation>, url: string)
    decreases |ops|
  {
    if ops == [] then mine == []
    else if ops[0].url != url then Interleaves(ops[1..], mine, url)
    else mine != [] && ops[0] == mine[0] && Interleaves(ops[1..], mine[1..], url)
  }

  lemma {:induction false} InterleavedBytes(ops: seq<Operation>, mine: seq<Operation>, url: string)
    requires Interleaves(ops, mine, url) && OnlyUpdates(mine, url) && forall op :: op in mine ==> op.url == url
    ensures OnlyUpdates(ops, url) && Bytes(ops, url) == Bytes(mine, url)
    decreases |ops|
  {
    if ops != [] {
      assert ops == [ops[0]] + ops[1..];
      if ops[0].url != url {
        InterleavedBytes(ops[1..], mine, url);
      } else {
        assert mine == [mine[0]] + mine[1..];
        InterleavedBytes(ops[1..], mine[1..], url);
      }
    }
  }

  /** One upload, with any buffers and any other uploads going on: the counter is the
      number of bytes read and never more than the total, and there are at most ten
      notices, none for an empty file and at least one for a complete one. */
  lemma AtMostTenNotices(m: map<string, Entry>, url: string, total: nat, sizes: seq<nat>, ops: seq<Operation>)
    requires Interleaves(ops, Reads(url, total, sizes), url)
    ensures var begun := Tracked(m, Set(url, total));
            var read := Least(Sum(sizes), total);
            && url in Run(begun, ops) && Run(begun, ops)[url] == Entry(read, total)
            && read <= total
            && Notices(begun, ops, url) <= 10
            && (total == 0 ==> Notices(begun, ops, url) == 0)
            && (total > 0 && read == total ==> Notices(begun, ops, url) >= 1)
  {
    hide Tracked, Run, Notices, Interleaves, Reads, Bytes, Sum, OnlyUpdates, Tenths;
    var begun := m[url := Entry(0, total)];
    assert Tracked(m, Set(url, total)) == begun by { SetTracks(m, url, total); }
    ReadsBytes(url, total, sizes);
    ReadsUpdate(url, total, sizes);
    assert OnlyUpdates(Reads(url, total, sizes), url) by { UpdatesOnly(Reads(url, total, sizes), url); }
    InterleavedBytes(ops, Reads(url, total, sizes), url);
    CountsEveryByte(begun, ops, url);
    if total > 0 {
      TenthsBetween(Least(Sum(sizes), total), total);
      SomeNotice(begun, ops, url);
    }
  }

  lemma TenthsBetween(read: nat, total: nat)
    requires read <= total && total > 0
    ensures Tenths(Entry(0, total)) == 0 && Tenths(Entry(read, total)) <= 10 && Tenths(Entry(total, total)) == 10
  {
    Monotone(read, total, total);
    assert total * 10 / total == 10;
  }

  lemma UpdatesOnly(ops: seq<Operation>, url: string)
    requires forall op :: op in ops ==> op.Update?
    ensures OnlyUpdates(ops, url)
  {
  }

  lemma SetTracks(m: map<string, Entry>, url: string, total: nat)
    ensures Tracked(m, Set(url, total)) == m[url := Entry(0, total)]
  {
  }

  /** No tenth is passed without a notice. */
  lemma {:induction false} SomeNotice(m: map<string, Entry>, ops: seq<Operation>, url: string)
    requires url in m && m[url].total > 0 && OnlyUpdates(ops, url)
    ensures url in Run(m, ops) && Run(m, ops)[url].total == m[url].total
    ensures Notices(m, ops, url) == 0 ==> Tenths(Run(m, ops)[url]) == Tenths(m[url])
    decreases |ops|
  {
    hide Tenths;
    if ops != [] {
      assert OnlyUpdates(ops[1..], url);
      assert ops[0] in ops;
      SomeNotice(Tracked(m, ops[0]), ops[1..], url);
    }
  }
}
