/**
 * The private chained `Timer` of Player/PlayerLayerView.swift. Each firing
 * runs the block and then queues exactly one next firing on the main queue;
 * a queued firing that finds the timer paused, or its owner gone, does
 * nothing and queues nothing. `pending` counts the queued firings, which the
 * environment runs one at a time; the 0.5 s delay itself is not modelled.
 */
module Ticking {

  /** `resumed`, whether the block is still set, and the queued firings. */
  datatype TimerState = TimerState(resumed: bool, alive: bool, pending: nat)

  /** A freshly created timer: not resumed, block set, nothing queued. */
  const Created := TimerState(false, true, 0)

  /** `resumed = true` (the first half of `resume`). */
  function Resumed(s: TimerState): (r: TimerState)
    ensures r.resumed && r.alive == s.alive && r.pending == s.pending
  {
    s.(resumed := true)
  }

  /** `pause()`. */
  function Paused(s: TimerState): (r: TimerState)
    ensures !r.resumed && r.alive == s.alive && r.pending == s.pending
  {
    s.(resumed := false)
  }

  /** `runNext()`: one more firing queued. */
  function Scheduled(s: TimerState): (r: TimerState)
    ensures r.pending == s.pending + 1 && r.resumed == s.resumed && r.alive == s.alive
  {
    s.(pending := s.pending + 1)
  }

  /** `deinit`: `resumed = false`, `block = nil`; the weak capture then finds nothing. */
  function Released(s: TimerState): (r: TimerState)
    ensures !r.resumed && !r.alive && r.pending == s.pending
  {
    s.(resumed := false, alive := false)
  }

  /** A queued firing is taken off the queue; it goes on to `fireEvent` only if the guard lets it. */
  datatype Firing = Firing(next: TimerState, fires: bool)

  function FiringTaken(s: TimerState): (r: Firing)
    requires s.pending > 0
    ensures r.next.pending == s.pending - 1
    ensures r.next.resumed == s.resumed && r.next.alive == s.alive
    ensures r.fires <==> s.resumed && s.alive
  {
    Firing(s.(pending := s.pending - 1), s.resumed && s.alive)
  }

  /**
   * One thing that can happen to a timer, for reasoning about runs of them.
   * `ResumeOp` is `resume()`, which fires at once; a released timer no longer
   * exists, so nobody can resume it and the step leaves it as it is.
   */
  datatype TimerOp = ResumeOp | PauseOp | FireOp | ReleaseOp

  /** The state after `op` and whether the block ran. */
  function Apply(s: TimerState, op: TimerOp): (r: Firing)
    ensures op == ResumeOp && s.alive ==> r.fires && r.next == TimerState(true, true, s.pending + 1)
    ensures op == FireOp && s.pending > 0 && s.resumed && s.alive ==> r.fires && r.next == s
    ensures op == FireOp && !(s.resumed && s.alive) ==> !r.fires
    ensures op == PauseOp ==> !r.fires && !r.next.resumed
    ensures op == ReleaseOp ==> !r.fires && !r.next.resumed && !r.next.alive
  {
    match op
    case ResumeOp =>
      if s.alive then Firing(Scheduled(Resumed(s)), true) else Firing(s, false)
    case PauseOp => Firing(Paused(s), false)
    case FireOp =>
      if s.pending == 0 then Firing(s, false)
      else
        var taken := FiringTaken(s);
        if taken.fires then Firing(Scheduled(taken.next), true) else taken
    case ReleaseOp => Firing(Released(s), false)
  }

  /** The state after a run of operations. */
  function Run(s: TimerState, ops: seq<TimerOp>): TimerState
    decreases |ops|
  {
    if ops == [] then s else Run(Apply(s, ops[0]).next, ops[1..])
  }

  /** How many times the block ran during a run of operations. */
  function BlockRuns(s: TimerState, ops: seq<TimerOp>): nat
    decreases |ops|
  {
    if ops == [] then 0
    else (if Apply(s, ops[0]).fires then 1 else 0) + BlockRuns(Apply(s, ops[0]).next, ops[1..])
  }

  /** After `pause`, the block does not run again until the next `resume`. */
  lemma {:induction false} PausedTimerStaysSilent(s: TimerState, ops: seq<TimerOp>)
    requires !s.resumed
    requires forall i :: 0 <= i < |ops| ==> ops[i] != ResumeOp
    ensures BlockRuns(s, ops) == 0
    ensures !Run(s, ops).resumed
    decreases |ops|
  {
    if ops != [] {
      PausedTimerStaysSilent(Apply(s, ops[0]).next, ops[1..]);
    }
  }

  /** After `deinit`, the block never runs again, whatever is still queued. */
  lemma {:induction false} ReleasedTimerStaysSilent(s: TimerState, ops: seq<TimerOp>)
    requires !s.alive
    ensures BlockRuns(s, ops) == 0
    ensures !Run(s, ops).alive && Run(s, ops).pending <= s.pending
    decreases |ops|
  {
    if ops != [] {
      ReleasedTimerStaysSilent(Apply(s, ops[0]).next, ops[1..]);
    }
  }

  /** While the timer stays resumed, every queued firing runs the block and re-queues itself. */
  lemma {:induction false} ResumedTimerKeepsFiring(s: TimerState, n: nat)
    requires s.resumed && s.alive && s.pending > 0
    ensures Run(s, seq(n, _ => FireOp)) == s
    ensures BlockRuns(s, seq(n, _ => FireOp)) == n
    decreases n
  {
    if n > 0 {
      var ops := seq(n, _ => FireOp);
      assert ops[0] == FireOp && ops[1..] == seq(n - 1, _ => FireOp);
      ResumedTimerKeepsFiring(s, n - 1);
    }
  }

  /**
   * The timer object. The block is the player's `playerTimerAction`, which
   * the owner runs itself when a method here says the block is to run.
   */
  class Timer {
    var resumed: bool
    var alive: bool
    var pending: nat

    function State(): TimerState
      reads this
    {
      TimerState(resumed, alive, pending)
    }

    constructor ()
      ensures State() == Created
    {
      resumed, alive, pending := false, true, 0;
    }

    /** The first half of `resume()`; the block runs next, then `RunNext`. */
    method Resume()
      modifies this
      ensures State() == Resumed(old(State()))
    {
      resumed := true;
    }

    /** `runNext()`: queue one firing. */
    method RunNext()
      modifies this
      ensures State() == Scheduled(old(State()))
    {
      pending := pending + 1;
    }

    method Pause()
      modifies this
      ensures State() == Paused(old(State()))
    {
      resumed := false;
    }

    method Deinit()
      modifies this
      ensures State() == Released(old(State()))
    {
      resumed := false;
      alive := false;
    }

    /** The environment runs one queued firing: `guard let this = self, this.resumed`. */
    method TakeFiring() returns (fires: bool)
      requires pending > 0
      modifies this
      ensures Firing(State(), fires) == FiringTaken(old(State()))
    {
      pending := pending - 1;
      fires := resumed && alive;
    }
  }
}
