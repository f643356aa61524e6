/** inChannel against the tokens it stands for: a URL is in the set exactly while one
    producer has reserved it, one slot of the channel holds it, or one receiver has taken
    it and not yet cleared it. */
module Tokens {
  import opened Bytes
  import opened ImageTable
  import opened Pipeline

  /** The URL a process holds outside the channel. */
  function Holds(pc: Pc): Option<string> {
    match pc
    case Pushing(QPush(img, _, _)) => Some(img.url)
    case Pushing(QUnreserve(img, _, _)) => Some(img.url)
    case Working(WUnreserve(img)) => Some(img.url)
    case Doing(CUnreserve(img)) => Some(img.url)
    case _ => None
  }

  /** Who holds what. */
  function Holdings(procs: map<nat, Pc>): map<nat, string> {
    map p | p in procs && Holds(procs[p]).Some? :: Holds(procs[p]).value
  }

  ghost predicate InSlots(ch: seq<Image>, url: string) {
    exists i :: 0 <= i < |ch| && ch[i].url == url
  }

  ghost predicate IsHeld(held: map<nat, string>, url: string) {
    exists p :: p in held && held[p] == url
  }

  ghost predicate TokensInv(ch: seq<Image>, inChannel: set<string>, held: map<nat, string>) {
    && |ch| <= CAPACITY
    && (forall i, j :: 0 <= i < j < |ch| ==> ch[i].url != ch[j].url)
    && (forall p, q :: p in held && q in held && p != q ==> held[p] != held[q])
    && (forall u :: InSlots(ch, u) ==> !IsHeld(held, u))
    && (forall u :: u in inChannel <==> InSlots(ch, u) || IsHeld(held, u))
  }

  ghost predicate TokenInv(s: State) {
    TokensInv(s.pushCh, s.inChannel, Holdings(s.procs))
  }

  // ---- The five ways a step touches tokens ----

  lemma HoldingsAfter(procs: map<nat, Pc>, p: nat, pc: Pc)
    ensures Holdings(procs[p := pc])
         == if Holds(pc).Some? then Holdings(procs)[p := Holds(pc).value] else Holdings(procs) - {p}
  {
  }

  lemma NeutralStep(ch: seq<Image>, inChannel: set<string>, procs: map<nat, Pc>, p: nat, pc: Pc)
    requires TokensInv(ch, inChannel, Holdings(procs))
    requires Holds(pc) == if p in procs then Holds(procs[p]) else None
    ensures TokensInv(ch, inChannel, Holdings(procs[p := pc]))
  {
    assert Holdings(procs[p := pc]) == Holdings(procs);
  }

  lemma ReserveStep(ch: seq<Image>, inChannel: set<string>, held: map<nat, string>, p: nat, url: string)
    requires TokensInv(ch, inChannel, held) && p !in held && url !in inChannel
    ensures TokensInv(ch, inChannel + {url}, held[p := url])
  {
    var after := held[p := url];
    assert after[p] == url;
    assert forall q :: q in held ==> after[q] == held[q];
    assert forall q :: q in after ==> q == p || q in held;
    assert forall q :: q in held ==> IsHeld(held, held[q]);
    IsHeldAfter(held, p, url);
  }

  lemma IsHeldAfter(held: map<nat, string>, p: nat, url: string)
    requires p !in held
    ensures forall u :: IsHeld(held[p := url], u) <==> u == url || IsHeld(held, u)
  {
    var after := held[p := url];
    forall u
      ensures IsHeld(after, u) <==> u == url || IsHeld(held, u)
    {
      assert after[p] == url;
      if IsHeld(held, u) {
        var q :| q in held && held[q] == u;
        assert after[q] == u;
      }
    }
  }

  lemma IsHeldWithout(held: map<nat, string>, p: nat)
    requires p in held && forall q :: q in held && q != p ==> held[q] != held[p]
    ensures forall u :: IsHeld(held - {p}, u) <==> u != held[p] && IsHeld(held, u)
  {
    var after := held - {p};
    forall u
      ensures IsHeld(after, u) <==> u != held[p] && IsHeld(held, u)
    {
      if u != held[p] && IsHeld(held, u) {
        var q :| q in held && held[q] == u;
        assert q in after && after[q] == u;
      }
    }
  }

  lemma SlotsAppend(ch: seq<Image>, img: Image)
    ensures forall u :: InSlots(ch + [img], u) <==> InSlots(ch, u) || u == img.url
  {
    var more := ch + [img];
    assert more[|ch|] == img;
    assert forall i :: 0 <= i < |ch| ==> more[i] == ch[i];
  }

  lemma PushStep(ch: seq<Image>, inChannel: set<string>, held: map<nat, string>, p: nat, img: Image)
    requires TokensInv(ch, inChannel, held) && p in held && held[p] == img.url && |ch| < CAPACITY
    ensures TokensInv(ch + [img], inChannel, held - {p})
  {
    SlotsAppend(ch, img);
    IsHeldWithout(held, p);
    assert IsHeld(held, img.url);
    assert forall i :: 0 <= i < |ch| ==> InSlots(ch, ch[i].url);
  }

  lemma PopStep(ch: seq<Image>, inChannel: set<string>, held: map<nat, string>, p: nat)
    requires TokensInv(ch, inChannel, held) && ch != [] && p !in held
    ensures TokensInv(ch[1..], inChannel, held[p := ch[0].url])
  {
    IsHeldAfter(held, p, ch[0].url);
    var after := held[p := ch[0].url];
    assert after[p] == ch[0].url && forall q :: q in held ==> after[q] == held[q] && IsHeld(held, held[q]);
    assert forall q :: q in after ==> q == p || q in held;
    assert InSlots(ch, ch[0].url);
    assert ch == [ch[0]] + ch[1..];
    assert forall u :: InSlots(ch, u) <==> u == ch[0].url || InSlots(ch[1..], u);
    assert !InSlots(ch[1..], ch[0].url);
  }

  lemma ReleaseStep(ch: seq<Image>, inChannel: set<string>, held: map<nat, string>, p: nat)
    requires TokensInv(ch, inChannel, held) && p in held
    ensures TokensInv(ch, inChannel - {held[p]}, held - {p})
  {
    IsHeldWithout(held, p);
    assert IsHeld(held, held[p]);
  }

  lemma ProduceKeepsTokens(s: State, p: nat, q: Producer)
    requires TokenInv(s) && p in s.procs && s.procs[p] == Pushing(q)
    ensures TokenInv(Produce(s, p, q))
  {
    hide TokensInv, Apply, ImagesOf;
    var pc, held := Produce(s, p, q).procs[p], Holdings(s.procs);
    HoldingsAfter(s.procs, p, pc);
    match q {
      case QReserve(imgs, loop) =>
        if imgs != [] && imgs[0].url !in s.inChannel {
          ReserveStep(s.pushCh, s.inChannel, held, p, imgs[0].url);
        } else {
          NeutralStep(s.pushCh, s.inChannel, s.procs, p, pc);
        }
      case QPush(img, rest, loop) =>
        if |s.pushCh| < CAPACITY {
          PushStep(s.pushCh, s.inChannel, held, p, img);
        } else {
          NeutralStep(s.pushCh, s.inChannel, s.procs, p, pc);
        }
      case QUnreserve(img, rest, loop) => ReleaseStep(s.pushCh, s.inChannel, held, p);
      case _ => NeutralStep(s.pushCh, s.inChannel, s.procs, p, pc);
    }
  }

  lemma WorkKeepsTokens(s: State, p: nat, w: Worker)
    requires TokenInv(s) && p in s.procs && s.procs[p] == Working(w) && CanAdvance(s, Working(w))
    ensures TokenInv(Work(s, p, w))
  {
    hide TokensInv, Apply, Lookup;
    var pc, held := Work(s, p, w).procs[p], Holdings(s.procs);
    HoldingsAfter(s.procs, p, pc);
    match w {
      case WReceive => PopStep(s.pushCh, s.inChannel, held, p);
      case WUnreserve(img) => ReleaseStep(s.pushCh, s.inChannel, held, p);
      case _ => NeutralStep(s.pushCh, s.inChannel, s.procs, p, pc);
    }
  }

  lemma DoKeepsTokens(s: State, p: nat, o: Other)
    requires TokenInv(s) && p in s.procs && s.procs[p] == Doing(o)
    ensures TokenInv(Do(s, p, o))
  {
    hide TokensInv, Apply, Write, Decide;
    var pc, held := Do(s, p, o).procs[p], Holdings(s.procs);
    HoldingsAfter(s.procs, p, pc);
    match o {
      case CReceive =>
        if s.pushCh != [] {
          PopStep(s.pushCh, s.inChannel, held, p);
        } else {
          NeutralStep(s.pushCh, s.inChannel, s.procs, p, pc);
        }
      case CUnreserve(img) => ReleaseStep(s.pushCh, s.inChannel, held, p);
      case _ => NeutralStep(s.pushCh, s.inChannel, s.procs, p, pc);
    }
  }

  lemma StepKeepsTokens(s: State, a: Action)
    requires TokenInv(s) && Enabled(s, a)
    ensures TokenInv(Next(s, a))
  {
    hide TokensInv, Produce, Work, Do, Apply;
    match a {
      case Advance(p) =>
        match s.procs[p] {
          case Pushing(q) => ProduceKeepsTokens(s, p, q);
          case Working(w) => WorkKeepsTokens(s, p, w);
          case Doing(o) => DoKeepsTokens(s, p, o);
        }
      case Spawn(p, pc) => NeutralStep(s.pushCh, s.inChannel, s.procs, p, pc);
      case Fail(p) => NeutralStep(s.pushCh, s.inChannel, s.procs, p, Next(s, a).procs[p]);
      case Succeed(p) => NeutralStep(s.pushCh, s.inChannel, s.procs, p, Next(s, a).procs[p]);
      case Stop(p) => NeutralStep(s.pushCh, s.inChannel, s.procs, p, Next(s, a).procs[p]);
      case _ =>
    }
  }

  lemma {:induction false} RunKeepsTokens(s: State, actions: seq<Action>)
    requires TokenInv(s) && IsRun(s, actions)
    ensures TokenInv(After(s, actions))
    decreases |actions|
  {
    hide TokenInv, Next, Enabled;
    if actions != [] {
      StepKeepsTokens(s, actions[0]);
      RunKeepsTokens(Next(s, actions[0]), actions[1..]);
    }
  }

  // ---- What the invariant says ----

  datatype Token = Slot(i: nat) | Holder(p: nat)

  function TokensOf(s: State, url: string): set<Token> {
    SlotTokens(s.pushCh, url) + HolderTokens(Holdings(s.procs), url)
  }

  function SlotTokens(ch: seq<Image>, url: string): set<Token> {
    set i | 0 <= i < |ch| && ch[i].url == url :: Slot(i)
  }

  function HolderTokens(held: map<nat, string>, url: string): set<Token> {
    set p | p in held && held[p] == url :: Holder(p)
  }

  /** In every interleaving of producers, schedulers, workers and ClearQueue calls a URL
      is in inChannel exactly when one token for it exists, and otherwise none does; so
      the channel holds no URL twice and never more than 512 images. */
  lemma OneTokenEach(s: State, actions: seq<Action>, url: string)
    requires IsInitial(s) && IsRun(s, actions)
    ensures var t := After(s, actions);
            && |TokensOf(t, url)| == (if url in t.inChannel then 1 else 0)
            && |t.pushCh| <= 512
            && forall i, j :: 0 <= i < j < |t.pushCh| ==> t.pushCh[i].url != t.pushCh[j].url
  {
    RunKeepsTokens(s, actions);
    CountTokens(After(s, actions), url);
  }

  lemma CountTokens(t: State, url: string)
    requires TokenInv(t)
    ensures |TokensOf(t, url)| == if url in t.inChannel then 1 else 0
  {
    hide Holdings, SlotTokens, HolderTokens;
    var ch, held := t.pushCh, Holdings(t.procs);
    CountSlots(ch, url);
    CountHolders(held, url);
    assert SlotTokens(ch, url) == {} || HolderTokens(held, url) == {};
    assert SlotTokens(ch, url) + {} == SlotTokens(ch, url) && {} + HolderTokens(held, url) == HolderTokens(held, url);
  }

  lemma CountSlots(ch: seq<Image>, url: string)
    requires forall i, j :: 0 <= i < j < |ch| ==> ch[i].url != ch[j].url
    ensures |SlotTokens(ch, url)| == if InSlots(ch, url) then 1 else 0
  {
    if InSlots(ch, url) {
      var i :| 0 <= i < |ch| && ch[i].url == url;
      assert SlotTokens(ch, url) == {Slot(i)};
    } else {
      assert SlotTokens(ch, url) == {};
    }
  }

  lemma CountHolders(held: map<nat, string>, url: string)
    requires forall p, q :: p in held && q in held && p != q ==> held[p] != held[q]
    ensures |HolderTokens(held, url)| == if IsHeld(held, url) then 1 else 0
  {
    if IsHeld(held, url) {
      var p :| p in held && held[p] == url;
      assert HolderTokens(held, url) == {Holder(p)};
    } else {
      assert HolderTokens(held, url) == {};
    }
  }
}
