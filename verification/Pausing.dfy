/** What Pause brings about in the running pipeline: who comes to the gate waits there, and
    who had passed it already finishes at most the image or the round it is at. */
module Pausing {
  import opened Bytes
  import opened ImageTable
  import opened Gate
  import opened Pipeline

  ghost predicate IsPaused(s: State) {
    GatesInv(s.gates) && s.gates.paused
  }

  predicate NoResume(actions: seq<Action>) {
    ResumeAll !in actions
  }

  lemma PausedNow(s: State)
    requires GatesInv(s.gates)
    ensures IsPaused(Next(s, PauseAll))
  {
    PauseOpens(s.gates);
  }

  lemma StaysPaused(s: State, a: Action)
    requires IsPaused(s) && Enabled(s, a) && a != ResumeAll
    ensures IsPaused(Next(s, a)) && Next(s, a).gates == s.gates
  {
    hide GatesInv, Apply, ImagesOf, Write, Decide, RetriesOf;
  }

  /** The process that takes the action. */
  function Actor(a: Action): Option<nat> {
    match a
    case Spawn(p, _) => Some(p)
    case Advance(p) => Some(p)
    case Fail(p) => Some(p)
    case Succeed(p) => Some(p)
    case Stop(p) => Some(p)
    case _ => None
  }

  /** A process moves only in its own actions. */
  lemma StandsStill(s: State, a: Action, p: nat)
    requires Enabled(s, a) && Actor(a) != Some(p)
    ensures p in Next(s, a).procs <==> p in s.procs
    ensures p in s.procs ==> Next(s, a).procs[p] == s.procs[p]
  {
    hide Produce, Work, Do, Paused, Resumed;
    if a.Advance? {
      match s.procs[a.p] {
        case Pushing(q) => ProduceMovesOne(s, a.p, q);
        case Working(w) => WorkMovesOne(s, a.p, w);
        case Doing(o) => DoMovesOne(s, a.p, o);
      }
    }
  }

  // ---- Who comes to the gate ----

  /** About to read which gate is current. */
  predicate AtGate(pc: Pc) {
    match pc
    case Pushing(SGate) => true
    case Working(WGate) => true
    case Working(WRegate(_)) => true
    case _ => false
  }

  /** The gate a process waits for. */
  function WaitsFor(pc: Pc): Option<nat> {
    match pc
    case Pushing(SWait(g)) => Some(g)
    case Working(WWait(g)) => Some(g)
    case Working(WRewait(_, g)) => Some(g)
    case _ => None
  }

  /** Waits for the current gate, which is open, so that only a cancelled context frees it. */
  ghost predicate Blocked(s: State, p: nat) {
    && p in s.procs && WaitsFor(s.procs[p]) == Some(s.gates.current)
    && !CanAdvance(s, s.procs[p])
  }

  lemma ComesToGate(s: State, p: nat)
    requires IsPaused(s) && p in s.procs && AtGate(s.procs[p])
    ensures Enabled(s, Advance(p)) && Blocked(Next(s, Advance(p)), p)
  {
  }

  lemma StepKeepsBlocked(s: State, a: Action, p: nat)
    requires IsPaused(s) && Enabled(s, a) && a != ResumeAll && a != Stop(p) && Blocked(s, p)
    ensures Blocked(Next(s, a), p)
  {
    hide Next, GatesInv;
    StaysPaused(s, a);
    if Actor(a) != Some(p) {
      StandsStill(s, a, p);
    }
  }

  lemma {:induction false} RunKeepsBlocked(s: State, actions: seq<Action>, p: nat)
    requires IsPaused(s) && IsRun(s, actions) && NoResume(actions) && Stop(p) !in actions && Blocked(s, p)
    ensures IsPaused(After(s, actions)) && Blocked(After(s, actions), p)
    decreases |actions|
  {
    hide Next, Enabled, IsPaused, Blocked;
    if actions != [] {
      assert actions[0] in actions;
      StaysPaused(s, actions[0]);
      StepKeepsBlocked(s, actions[0], p);
      RunKeepsBlocked(Next(s, actions[0]), actions[1..], p);
    }
  }

  lemma {:induction false} RunStaysPaused(s: State, actions: seq<Action>)
    requires IsPaused(s) && IsRun(s, actions) && NoResume(actions)
    ensures IsPaused(After(s, actions)) && After(s, actions).gates == s.gates
    decreases |actions|
  {
    hide Next, Enabled, IsPaused;
    if actions != [] {
      assert actions[0] in actions;
      StaysPaused(s, actions[0]);
      RunStaysPaused(Next(s, actions[0]), actions[1..]);
    }
  }

  /** A process that comes to the gate at any time after a pause that nobody ends, be it
      the scheduler or a worker before or after it has taken an image, waits there
      through the rest of the run, whatever else happens, unless the context is cancelled. */
  lemma NobodyPasses(s: State, before: seq<Action>, p: nat, behind: seq<Action>)
    requires GatesInv(s.gates) && NoResume(before) && NoResume(behind) && Stop(p) !in behind
    requires IsRun(Next(s, PauseAll), before)
    requires var t := After(Next(s, PauseAll), before);
             && p in t.procs && AtGate(t.procs[p])
             && Enabled(t, Advance(p)) && IsRun(Next(t, Advance(p)), behind)
    ensures var t := After(Next(s, PauseAll), before);
            Blocked(After(Next(t, Advance(p)), behind), p)
  {
    hide IsPaused, Blocked, IsRun, After, NoResume, AtGate, Advanced, Paused;
    PausedNow(s);
    RunStaysPaused(Next(s, PauseAll), before);
    var t := After(Next(s, PauseAll), before);
    ComesToGate(t, p);
    AdvanceIsNoResume(t, p);
    RunKeepsBlocked(Next(t, Advance(p)), behind, p);
  }

  lemma AdvanceIsNoResume(s: State, p: nat)
    requires IsPaused(s) && Enabled(s, Advance(p))
    ensures IsPaused(Next(s, Advance(p)))
  {
    hide IsPaused, Enabled, Next;
    StaysPaused(s, Advance(p));
  }

  // ---- Who had passed it ----

  /** A worker marks an image uploading, or the scheduler begins a round. */
  predicate Starts(s: State, a: Action, p: nat) {
    && a == Advance(p) && p in s.procs
    && match s.procs[p]
       case Working(WSetUploading(_)) => true
       case Pushing(SListFresh) => true
       case _ => false
  }

  /** The process has passed the gate before an upload or a round, or finds it closed. */
  predicate Passed(s: State, p: nat) {
    && p in s.procs
    && match s.procs[p]
       case Working(WSetUploading(_)) => true
       case Working(WRewait(_, g)) => IsClosed(s, g)
       case Pushing(SListFresh) => true
       case Pushing(SWait(g)) => IsClosed(s, g)
       case _ => false
  }

  ghost function StartsOf(s: State, actions: seq<Action>, p: nat): nat
    requires IsRun(s, actions)
    decreases |actions|
  {
    if actions == [] then 0
    else (if Starts(s, actions[0], p) then 1 else 0) + StartsOf(Next(s, actions[0]), actions[1..], p)
  }

  lemma ProducerUsesUp(s: State, p: nat, q: Producer)
    requires IsPaused(s) && p in s.procs && s.procs[p] == Pushing(q) && CanAdvance(s, s.procs[p])
    ensures Passed(Next(s, Advance(p)), p) ==> Passed(s, p) && !Starts(s, Advance(p), p)
  {
    hide Apply, ImagesOf;
  }

  lemma WorkerUsesUp(s: State, p: nat, w: Worker)
    requires IsPaused(s) && p in s.procs && s.procs[p] == Working(w) && CanAdvance(s, s.procs[p])
    ensures Passed(Next(s, Advance(p)), p) ==> Passed(s, p) && !Starts(s, Advance(p), p)
  {
    hide Apply, RetriesOf;
  }

  lemma OwnStepUsesUp(s: State, a: Action, p: nat)
    requires IsPaused(s) && Enabled(s, a) && Actor(a) == Some(p) && !a.Advance?
    ensures !Passed(Next(s, a), p)
  {
  }

  lemma OtherUsesUp(s: State, p: nat, o: Other)
    requires p in s.procs && s.procs[p] == Doing(o)
    ensures !Passed(Next(s, Advance(p)), p)
  {
    hide Apply, Write, Decide, Numbered;
  }

  /** While paused, a step that starts something uses up having passed. */
  lemma StepUsesUp(s: State, a: Action, p: nat)
    requires IsPaused(s) && Enabled(s, a) && a != ResumeAll
    ensures Passed(Next(s, a), p) ==> Passed(s, p) && !Starts(s, a, p)
    ensures Starts(s, a, p) ==> Passed(s, p)
  {
    hide Next, GatesInv;
    StaysPaused(s, a);
    if Actor(a) != Some(p) {
      StandsStill(s, a, p);
    } else if a.Advance? {
      match s.procs[p] {
        case Pushing(q) => ProducerUsesUp(s, p, q);
        case Working(w) => WorkerUsesUp(s, p, w);
        case Doing(o) => OtherUsesUp(s, p, o);
      }
    } else {
      OwnStepUsesUp(s, a, p);
    }
  }

  lemma {:induction false} RunUsesUp(s: State, actions: seq<Action>, p: nat)
    requires IsPaused(s) && IsRun(s, actions) && NoResume(actions)
    ensures StartsOf(s, actions, p) <= if Passed(s, p) then 1 else 0
    decreases |actions|
  {
    hide Next, Enabled, IsPaused, Passed, Starts;
    if actions != [] {
      assert actions[0] in actions;
      StaysPaused(s, actions[0]);
      StepUsesUp(s, actions[0], p);
      RunUsesUp(Next(s, actions[0]), actions[1..], p);
    }
  }

  /** From the moment of a pause until it ends no worker starts an upload and no scheduler a
      round, except that one which had passed the gate by then starts at most one. */
  lemma PauseHolds(s: State, actions: seq<Action>, p: nat)
    requires GatesInv(s.gates) && IsRun(Next(s, PauseAll), actions) && NoResume(actions)
    ensures StartsOf(Next(s, PauseAll), actions, p) <= if Passed(s, p) then 1 else 0
  {
    hide IsRun, StartsOf, NoResume, Starts, Passed, IsPaused, Advanced, Paused;
    PausedNow(s);
    RunUsesUp(Next(s, PauseAll), actions, p);
    PassedBefore(s, p);
  }

  lemma PassedBefore(s: State, p: nat)
    requires GatesInv(s.gates)
    ensures Passed(Next(s, PauseAll), p) ==> Passed(s, p)
  {
    PauseOpens(s.gates);
  }
}
