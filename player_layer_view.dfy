/**
 * `PlayerLayerView` of Player/PlayerLayerView.swift as an object whose
 * methods update its fields step by step, as the Swift code does. Every
 * method is proved to leave the view in the state the matching function of
 * `PlayerModel` computes from the old state, so the lemmas proved there
 * hold of this object.
 */
module PlayerLayer {
  import opened Wrappers
  import opened TrackActions
  import opened Guards
  import opened Ticking
  import opened PlayerModel

  /** The file-level `staticLastBitrate`, shared by every view. */
  class BitrateMemo {
    var last: real

    constructor ()
      ensures last == 0.0
    {
      last := 0.0;
    }
  }

  class PlayerLayerView {
    var state: PlayerState
    var isPlaying: bool
    var isBuffering: bool
    var hasReadyToPlay: bool
    var playDidEnd: bool
    var shouldSeekTo: Option<PendingSeek>
    var hasItem: bool
    var hasPlayer: bool
    var retries: nat
    var seeks: seq<Option<Completion>>
    var log: seq<Output>
    const timer: Timer
    const pointsHandlers: TrackList
    const guard: Guard
    const memo: BitrateMemo

    /** The view as a value of the model. */
    function Abs(): View
      reads this, timer, pointsHandlers, guard, memo
    {
      View(state, isPlaying, isBuffering, hasReadyToPlay, playDidEnd, shouldSeekTo, hasItem, hasPlayer,
           retries, seeks, timer.State(), pointsHandlers.actions, pointsHandlers.tag, guard.locks, memo.last, log)
    }

    ghost predicate Valid()
      reads this, timer, pointsHandlers, guard, memo
    {
      RetryInv(Abs()) && ItemNeedsPlayer(Abs())
    }

    constructor (tag: int, guard: Guard, memo: BitrateMemo)
      ensures Abs() == Initial(tag, guard.locks, memo.last)
      ensures Valid() && fresh(timer) && fresh(pointsHandlers) && this.guard == guard && this.memo == memo
    {
      state := NotSetURL;
      isPlaying, isBuffering, hasReadyToPlay, playDidEnd := false, false, false, false;
      shouldSeekTo := None;
      hasItem, hasPlayer := false, false;
      retries, seeks, log := 0, [], [];
      timer := new Timer();
      pointsHandlers := new TrackList(tag);
      this.guard := guard;
      this.memo := memo;
    }

    /** Assigning `state`. */
    method SetState(s: PlayerState)
      modifies this
      ensures Abs() == PlayerModel.SetState(old(Abs()), s)
    {
      var oldValue := state;
      state := s;
      if state != oldValue {
        log := log + [StateChanged(state)];
      }
    }

    /** Assigning `isPlaying`. */
    method SetPlaying(b: bool)
      modifies this
      ensures Abs() == PlayerModel.SetPlaying(old(Abs()), b)
    {
      var oldValue := isPlaying;
      isPlaying := b;
      if isPlaying != oldValue {
        log := log + [PlayingChanged(isPlaying)];
      }
    }

    /** `pointsHandlers.process(time:)`. */
    method ProcessHandlers(t: Time)
      modifies this, pointsHandlers, guard
      ensures Abs() == PlayerModel.ProcessHandlers(old(Abs()), t)
    {
      var calls := pointsHandlers.Process(t, guard);
      log := log + AsOutputs(calls);
    }

    /** The final tick of `moviePlayDidEnd()`. */
    method FinalTick(eng: Engine)
      modifies this, pointsHandlers, guard
      ensures Abs() == PlayerModel.FinalTick(old(Abs()), eng)
    {
      var currentTime := eng.duration;
      log := log + [PlayTimeChanged(currentTime, eng.duration)];
      ProcessHandlers(currentTime);
    }

    /** The settling of `moviePlayDidEnd()`. */
    method Finish()
      requires state != PlayedToTheEnd
      modifies this, timer
      ensures Abs() == PlayerModel.Finish(old(Abs()))
    {
      SetState(PlayedToTheEnd);
      SetPlaying(false);
      ghost var x := Abs();
      playDidEnd := true;
      timer.Pause();
      assert Abs() == x.(playDidEnd := true, timer := Paused(x.timer));
    }

    method MoviePlayDidEnd(eng: Engine)
      modifies this, timer, pointsHandlers, guard
      ensures Abs() == PlayerModel.MoviePlayDidEnd(old(Abs()), eng)
    {
      if state != PlayedToTheEnd {
        if hasItem {
          FinalTick(eng);
        }
        Finish();
      }
    }

    method UpdateStatus(eng: Engine, includeLoading: bool)
      modifies this, timer, pointsHandlers, guard
      ensures Abs() == PlayerModel.UpdateStatus(old(Abs()), eng, includeLoading)
    {
      if hasPlayer {
        if hasItem && includeLoading {
          if eng.likelyToKeepUp || eng.bufferFull {
            SetState(BufferFinished);
          } else if eng.itemStatus == ItemFailed {
            SetState(Error);
          } else {
            SetState(Buffering);
          }
        }
        if eng.rateIsZero {
          if eng.hasError {
            SetState(Error);
            return;
          }
          if hasItem && eng.reachedEnd {
            MoviePlayDidEnd(eng);
            return;
          }
        }
      }
    }

    /** The timer's block. */
    method PlayerTimerAction(eng: Engine)
      modifies this, timer, pointsHandlers, guard
      ensures Abs() == PlayerModel.PlayerTimerAction(old(Abs()), eng)
    {
      if !hasItem {
        return;
      }
      if eng.durationKnown {
        var currentTime := eng.currentTime;
        log := log + [PlayTimeChanged(currentTime, Finite(eng.totalTime))];
        ProcessHandlers(currentTime);
      }
      UpdateStatus(eng, true);
    }

    /** The timer's `fireEvent()`: the block, then `runNext()`. */
    method FireEvent(eng: Engine)
      modifies this, timer, pointsHandlers, guard
      ensures Abs() == PlayerModel.FireEvent(old(Abs()), eng)
    {
      PlayerTimerAction(eng);
      timer.RunNext();
    }

    /** `timer.resume()`. */
    method ResumeTimer(eng: Engine)
      modifies this, timer, pointsHandlers, guard
      ensures Abs() == PlayerModel.ResumeTimer(old(Abs()), eng)
    {
      timer.Resume();
      FireEvent(eng);
    }

    /** The main queue runs one queued timer firing. */
    method RunTimerFiring(eng: Engine)
      requires timer.pending > 0
      modifies this, timer, pointsHandlers, guard
      ensures Abs() == PlayerModel.RunTimerFiring(old(Abs()), eng)
    {
      var fires := timer.TakeFiring();
      if fires {
        FireEvent(eng);
      }
    }

    method Play(eng: Engine)
      modifies this, timer, pointsHandlers, guard
      ensures Abs() == PlayerModel.Play(old(Abs()), eng)
    {
      if hasPlayer {
        ghost var v := Abs();
        log := log + [EnginePlay];
        assert Abs() == PlayerModel.Emit(v, EnginePlay);
        ResumeTimer(Started(eng));
        assert Abs() == PlayerModel.StartPlayback(v, eng);
        SetPlaying(true);
      }
    }

    method Pause()
      modifies this, timer
      ensures Abs() == PlayerModel.Pause(old(Abs()))
    {
      if hasPlayer {
        log := log + [EnginePause];
      }
      SetPlaying(false);
      timer.Pause();
    }

    method ResetPlayer()
      modifies this, timer
      ensures Abs() == PlayerModel.ResetPlayer(old(Abs()))
    {
      ghost var v := Abs();
      playDidEnd := false;
      hasItem := false;
      timer.Pause();
      ghost var x := Abs();
      assert x == v.(playDidEnd := false, hasItem := false, timer := Paused(v.timer));
      Pause();
      assert Abs() == PlayerModel.Pause(x);
      hasPlayer := false;
    }

    method ConfigureItem()
      modifies this
      ensures Abs() == PlayerModel.ConfigureItem(old(Abs()))
    {
      playDidEnd := false;
      hasItem, hasPlayer := true, true;
    }

    method AddTrackAction(a: TrackAction)
      modifies pointsHandlers
      ensures Abs() == PlayerModel.AddTrackAction(old(Abs()), a)
    {
      pointsHandlers.Add(a);
    }

    /** The branch of `seek(to:completion:)` after the timer resumed: ask the engine, or store the seek. */
    method IssueSeek(eng: Engine, seconds: real, completion: Option<Completion>)
      modifies this
      ensures ReadyForSeek(old(Abs()), eng) ==>
        Abs() == Emit(old(Abs()), EngineSeek(Trunc(seconds))).(seeks := old(seeks) + [completion])
      ensures !ReadyForSeek(old(Abs()), eng) ==>
        Abs() == old(Abs()).(shouldSeekTo := Some(PendingSeek(seconds, completion)))
    {
      ghost var v := Abs();
      if hasPlayer && hasItem && eng.itemStatus == ItemReadyToPlay {
        var target := Trunc(seconds);
        log := log + [EngineSeek(target)];
        seeks := seeks + [completion];
        assert Abs() == v.(log := v.log + [EngineSeek(target)], seeks := v.seeks + [completion]);
      } else {
        shouldSeekTo := Some(PendingSeek(seconds, completion));
      }
    }

    method Seek(eng: Engine, seconds: Time, completion: Option<Completion>)
      modifies this, timer, pointsHandlers, guard
      ensures Abs() == PlayerModel.Seek(old(Abs()), eng, seconds, completion)
    {
      if seconds.NaN? {
        return;
      }
      ResumeTimer(eng);
      IssueSeek(eng, seconds.value, completion);
    }

    /** Running a seek completion closure. */
    method RunCompletion(c: Completion)
      modifies this
      ensures Abs() == PlayerModel.RunCompletion(old(Abs()), c)
      decreases c
    {
      match c
      case Callback(id) =>
        log := log + [CompletionInvoked(id)];
      case ApplyPendingSeek(stored) =>
        ghost var v := Abs();
        if stored.Some? {
          RunCompletion(stored.value);
        }
        ghost var w := Abs();
        assert w == if stored.Some? then PlayerModel.RunCompletion(v, stored.value) else v;
        shouldSeekTo := None;
        hasReadyToPlay := true;
        assert Abs() == w.(shouldSeekTo := None, hasReadyToPlay := true);
        SetState(ReadyToPlay);
    }

    /** The engine calls back the oldest outstanding seek completion. */
    method CompleteSeek()
      requires |seeks| > 0
      modifies this
      ensures Abs() == PlayerModel.CompleteSeek(old(Abs()))
    {
      var c := seeks[0];
      seeks := seeks[1..];
      if c.Some? {
        RunCompletion(c.value);
      }
    }

    method ObserveStatus(eng: Engine)
      modifies this, timer, pointsHandlers, guard
      ensures Abs() == PlayerModel.ObserveStatus(old(Abs()), eng)
    {
      if !hasItem {
        return;
      }
      if eng.itemStatus == ItemFailed || (hasPlayer && eng.playerStatus == EngineFailed) {
        SetState(Error);
      } else if hasPlayer && eng.playerStatus == EngineReadyToPlay {
        SetState(Buffering);
        match shouldSeekTo
        case Some(p) =>
          Seek(eng, Finite(p.seconds), Some(ApplyPendingSeek(p.completion)));
        case None =>
          hasReadyToPlay := true;
          SetState(ReadyToPlay);
      }
    }

    method ObserveLoadedTimeRanges(eng: Engine)
      modifies this
      ensures Abs() == PlayerModel.ObserveLoadedTimeRanges(old(Abs()), eng)
    {
      if hasItem && eng.loaded.Some? {
        log := log + [LoadedTimeChanged(eng.loaded.value, eng.duration)];
      }
    }

    /** Past the `isBuffering` guard of `bufferingSomeSecond()`. */
    method QueueRetryCheck()
      requires !isBuffering
      modifies this
      ensures Abs() == PlayerModel.QueueRetryCheck(old(Abs()))
    {
      ghost var v := Abs();
      var pause := if hasPlayer then [EnginePause] else [];
      isBuffering, retries, log := true, retries + 1, log + pause;
      assert Abs() == v.(isBuffering := true, retries := v.retries + 1, log := v.log + pause);
    }

    method BufferingSomeSecond()
      modifies this
      ensures Abs() == PlayerModel.BufferingSomeSecond(old(Abs()))
    {
      SetState(Buffering);
      if isBuffering {
        return;
      }
      QueueRetryCheck();
    }

    /** The main queue runs the queued one-second check. */
    method RunRetryCheck(eng: Engine)
      requires retries > 0
      modifies this
      ensures Abs() == PlayerModel.RunRetryCheck(old(Abs()), eng)
    {
      ghost var v := Abs();
      retries := retries - 1;
      isBuffering := false;
      assert Abs() == v.(retries := v.retries - 1, isBuffering := false);
      if hasItem {
        if !eng.likelyToKeepUp {
          BufferingSomeSecond();
        } else {
          SetState(BufferFinished);
        }
      }
    }

    method ObserveBufferEmpty(eng: Engine)
      modifies this
      ensures Abs() == PlayerModel.ObserveBufferEmpty(old(Abs()), eng)
    {
      if hasItem && eng.bufferEmpty {
        SetState(Buffering);
        BufferingSomeSecond();
      }
    }

    method ObserveLikelyToKeepUp(eng: Engine)
      modifies this
      ensures Abs() == PlayerModel.ObserveLikelyToKeepUp(old(Abs()), eng)
    {
      if hasItem && eng.bufferEmpty {
        if state != BufferFinished && hasReadyToPlay {
          SetState(BufferFinished);
          playDidEnd := true;
        }
      }
    }

    method ObserveValue(eng: Engine, key: KeyPath)
      modifies this, timer, pointsHandlers, guard
      ensures Abs() == PlayerModel.ObserveValue(old(Abs()), eng, key)
    {
      match key
      case Status => ObserveStatus(eng);
      case LoadedTimeRanges => ObserveLoadedTimeRanges(eng);
      case PlaybackBufferEmpty => ObserveBufferEmpty(eng);
      case PlaybackLikelyToKeepUp => ObserveLikelyToKeepUp(eng);
      case Rate => UpdateStatus(eng, false);
      case OtherKey =>
    }

    method PlayItemEvent(observedBitrate: Option<real>)
      modifies this, memo
      ensures Abs() == PlayerModel.PlayItemEvent(old(Abs()), observedBitrate)
    {
      if !hasItem || observedBitrate.None? {
        return;
      }
      var oldBitrate := memo.last;
      var newBitrate := observedBitrate.value / 1000.0;
      memo.last := newBitrate;
      log := log + [BitrateChanged(oldBitrate, newBitrate)];
    }

    /** A call from the owner of the view. */
    method HandleCall(e: Event)
      requires e.input.PlayCall? || e.input.PauseCall? || e.input.SeekCall? || e.input.ResetCall? ||
               e.input.ConfigureCall? || e.input.AddActionCall?
      modifies this, timer, pointsHandlers, guard
      ensures Abs() == Step(old(Abs()), e)
    {
      var eng := e.eng;
      match e.input
      case PlayCall => Play(eng);
      case PauseCall => Pause();
      case SeekCall(seconds, c) => Seek(eng, seconds, if c.Some? then Some(Callback(c.value)) else None);
      case ResetCall => ResetPlayer();
      case ConfigureCall => ConfigureItem();
      case AddActionCall(a) => AddTrackAction(a);
    }

    /** A notification from the engine. */
    method HandleEngine(e: Event)
      requires e.input.Observed? || e.input.ItemDidPlayToEnd? || e.input.AccessLogEntry?
      modifies this, timer, pointsHandlers, guard, memo
      ensures Abs() == Step(old(Abs()), e)
    {
      var eng := e.eng;
      ghost var v := Abs();
      match e.input
      case Observed(key) =>
        assert Step(v, e) == PlayerModel.ObserveValue(v, eng, key);
        ObserveValue(eng, key);
      case ItemDidPlayToEnd =>
        assert Step(v, e) == PlayerModel.MoviePlayDidEnd(v, eng);
        MoviePlayDidEnd(eng);
      case AccessLogEntry(b) =>
        assert Step(v, e) == PlayerModel.PlayItemEvent(v, b);
        PlayItemEvent(b);
    }

    /** A task the main queue holds; nothing when it holds none. */
    method HandleQueued(e: Event)
      requires e.input.TimerFires? || e.input.RetryFires? || e.input.SeekFinishes?
      modifies this, timer, pointsHandlers, guard
      ensures Abs() == Step(old(Abs()), e)
    {
      var eng := e.eng;
      match e.input
      case TimerFires =>
        if timer.pending > 0 {
          RunTimerFiring(eng);
        }
      case RetryFires =>
        if retries > 0 {
          RunRetryCheck(eng);
        }
      case SeekFinishes =>
        if |seeks| > 0 {
          CompleteSeek();
        }
    }

    /** Whatever happens next: a caller, the engine or a queued task. */
    method Handle(e: Event)
      requires Valid()
      modifies this, timer, pointsHandlers, guard, memo
      ensures Abs() == Step(old(Abs()), e)
      ensures Valid()
    {
      if e.input.Observed? || e.input.ItemDidPlayToEnd? || e.input.AccessLogEntry? {
        HandleEngine(e);
      } else if e.input.TimerFires? || e.input.RetryFires? || e.input.SeekFinishes? {
        HandleQueued(e);
      } else {
        HandleCall(e);
      }
      StepKeepsInvariants(old(Abs()), e);
    }
  }
}
