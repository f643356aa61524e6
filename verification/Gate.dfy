/** The pause gate of internal/pipeline/pipeline.go: a channel that is closed while the
    pipeline runs and replaced by an open one when it is paused. */
module Gate {
  /** Every gate made so far, true when closed, the current one, and the flag. */
  datatype Gates = Gates(closed: seq<bool>, current: nat, paused: bool)

  const OPENED := Gates([true], 0, false)

  function Paused(g: Gates): Gates {
    if g.paused then g else Gates(g.closed + [false], |g.closed|, true)
  }

  function Resumed(g: Gates): Gates
    requires g.current < |g.closed|
  {
    if g.paused then Gates(g.closed[g.current := true], g.current, false) else g
  }

  /** Exactly one gate can be open: the current one, while paused. */
  predicate GatesInv(g: Gates) {
    g.current < |g.closed| && forall i :: 0 <= i < |g.closed| ==> (!g.closed[i] <==> i == g.current && g.paused)
  }

  class PauseGate {
    var closed: seq<bool>
    var current: nat
    var paused: bool

    constructor ()
      ensures State() == OPENED
    {
      closed, current, paused := [true], 0, false;
    }

    function State(): Gates
      reads this
    {
      Gates(closed, current, paused)
    }

    method Pause()
      modifies this
      ensures State() == Paused(old(State()))
      ensures paused && (old(GatesInv(State())) ==> current < |closed| && !closed[current] && GatesInv(State()))
      ensures if old(paused) then State() == old(State())
              else current == |old(closed)| && |closed| == current + 1 && closed[..current] == old(closed)
    {
      if !paused {
        paused := true;
        current := |closed|;
        closed := closed + [false];
      }
    }

    method Resume()
      requires GatesInv(State())
      modifies this
      ensures State() == Resumed(old(State()))
      ensures !paused && current == old(current) && |closed| == |old(closed)|
      ensures forall i :: 0 <= i < |closed| ==> closed[i]
    {
      if paused {
        paused := false;
        Close(current);
      }
    }

    /** close(ch): closing a closed channel would panic. */
    method Close(i: nat)
      requires i < |closed| && !closed[i]
      modifies this`closed
      ensures closed == old(closed)[i := true]
    {
      closed := closed[i := true];
    }

    method IsPaused() returns (p: bool)
      ensures p == State().paused
    {
      p := paused;
    }
  }

  /** Pausing opens the current gate; when it was not paused before, that is a new one, and
      the others are as they were. */
  lemma PauseOpens(g: Gates)
    requires GatesInv(g)
    ensures var h := Paused(g);
            && GatesInv(h) && h.paused && !h.closed[h.current]
            && (g.paused ==> h == g)
            && (!g.paused ==> h.current == |g.closed| && h.closed == g.closed + [false])
  {
  }

  datatype Call = Pause | Resume

  function RunGates(g: Gates, calls: seq<Call>): Gates
    requires GatesInv(g)
    ensures GatesInv(RunGates(g, calls))
    decreases |calls|
  {
    if calls == [] then g
    else RunGates(if calls[0].Pause? then Paused(g) else Resumed(g), calls[1..])
  }

  /** In every run every gate but the current one is closed, the current one is closed
      exactly when the pipeline is not paused, and so whoever is blocked on gate `w` is
      blocked on the current gate and the next Resume, which closes a gate that was
      open, releases every waiter. */
  lemma WaitersAreReleased(calls: seq<Call>, w: nat)
    ensures var g := RunGates(OPENED, calls);
            && (w < |g.closed| && !g.closed[w] ==> w == g.current && g.paused)
            && (g.paused ==> !g.closed[g.current])
            && (w < |g.closed| ==> Resumed(g).closed[w])
  {
    assert GatesInv(OPENED);
  }
}
