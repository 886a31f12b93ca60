/**
 * The playback controller logic of Player/PlayerLayerView.swift as functions
 * on a snapshot of the view's fields. The engine (AVPlayer and its current
 * AVPlayerItem) is an `Engine` record read by each handler; what the view
 * tells its delegate, the engine commands it issues and the callbacks it
 * invokes are appended to one output log, in order.
 */
module PlayerModel {
  import opened Wrappers
  import opened TrackActions
  import opened Ticking

  datatype PlayerState = NotSetURL | ReadyToPlay | Buffering | BufferFinished | PlayedToTheEnd | Error

  /** `AVPlayerItem.Status` and `AVPlayer.Status`. */
  datatype ItemStatus = ItemUnknown | ItemReadyToPlay | ItemFailed
  datatype EngineStatus = EngineUnknown | EngineReadyToPlay | EngineFailed

  /** What the handlers read from the engine at the moment they run. */
  datatype Engine = Engine(
    itemStatus: ItemStatus,       // playerItem.status (the player's current item)
    playerStatus: EngineStatus,   // player.status
    likelyToKeepUp: bool,         // isPlaybackLikelyToKeepUp
    bufferFull: bool,             // isPlaybackBufferFull
    bufferEmpty: bool,            // isPlaybackBufferEmpty
    rateIsZero: bool,             // player.rate == 0
    hasError: bool,               // player.error != nil
    reachedEnd: bool,             // player.currentTime() >= currentItem.duration
    durationKnown: bool,          // playerItem.duration.timescale != 0
    currentTime: Time,            // seconds of player.currentTime()
    totalTime: real,              // duration.value / duration.timescale
    duration: Time,               // seconds of playerItem.duration
    loaded: Option<Time>)         // availableDuration()

  /** A seek completion closure: a caller's callback, or the one the status handler wraps around a pending seek. */
  datatype Completion = Callback(id: CallbackId) | ApplyPendingSeek(stored: Option<Completion>)

  /** `shouldSeekTo`: the time and the completion of a seek requested before the item was ready. */
  datatype PendingSeek = PendingSeek(seconds: real, completion: Option<Completion>)

  datatype Output =
    | StateChanged(state: PlayerState)                // playerStateDidChange
    | PlayingChanged(playing: bool)                   // playerIsPlaying
    | PlayTimeChanged(current: Time, total: Time)     // playTimeDidChange
    | LoadedTimeChanged(loaded: Time, total: Time)    // loadedTimeDidChange
    | BitrateChanged(from: real, to: real)            // bitrateChangedFrom:to:
    | ActionInvoked(call: Invocation)                 // a track action's callback
    | CompletionInvoked(callback: CallbackId)         // a seek caller's completion
    | EnginePlay | EnginePause | EngineSeek(seconds: int)

  /** The fields of the view and of the objects it drives. */
  datatype View = View(
    state: PlayerState,
    isPlaying: bool,
    isBuffering: bool,
    hasReadyToPlay: bool,
    playDidEnd: bool,
    shouldSeekTo: Option<PendingSeek>,
    hasItem: bool,                  // playerItem != nil
    hasPlayer: bool,                // player != nil
    retries: nat,                   // queued one-second buffering checks
    seeks: seq<Option<Completion>>, // seek completions the engine has still to call
    timer: TimerState,
    handlers: seq<TrackAction>,     // pointsHandlers
    tag: int,                       // the guard tag of pointsHandlers
    locks: set<int>,                // the process-wide guard set
    lastBitrate: real,              // the file-level staticLastBitrate
    log: seq<Output>)

  function Initial(tag: int, locks: set<int>, lastBitrate: real): (v: View)
    ensures v.state == NotSetURL && !v.hasItem && !v.hasPlayer
  {
    View(NotSetURL, false, false, false, false, None, false, false, 0, [], Created, [], tag, locks, lastBitrate, [])
  }

  /** The ids of the seek completions invoked, in the order of the log. */
  function Completed(log: seq<Output>): seq<CallbackId>
    decreases |log|
  {
    if log == [] then []
    else
      var last := log[|log| - 1];
      Completed(log[..|log| - 1]) + (if last.CompletionInvoked? then [last.callback] else [])
  }

  lemma {:induction false} CompletedAppend(a: seq<Output>, b: seq<Output>)
    ensures Completed(a + b) == Completed(a) + Completed(b)
    decreases |b|
  {
    if b == [] {
      assert a + b == a;
    } else {
      var b' := b[..|b| - 1];
      assert (a + b)[..|a + b| - 1] == a + b';
      CompletedAppend(a, b');
    }
  }

  /** Calls of track actions as log entries. */
  function AsOutputs(calls: seq<Invocation>): (r: seq<Output>)
    ensures |r| == |calls|
    ensures forall i :: 0 <= i < |r| ==> r[i] == ActionInvoked(calls[i])
  {
    seq(|calls|, i requires 0 <= i < |calls| => ActionInvoked(calls[i]))
  }

  lemma {:induction false} NoCompletionsAmongActions(outs: seq<Output>)
    requires forall i :: 0 <= i < |outs| ==> outs[i].ActionInvoked?
    ensures Completed(outs) == []
    decreases |outs|
  {
    if outs != [] {
      NoCompletionsAmongActions(outs[..|outs| - 1]);
    }
  }

  /** The fields that the timer tick and the status re-evaluation never touch. */
  predicate TickFrame(v: View, r: View)
  {
    r.tag == v.tag && r.hasItem == v.hasItem && r.hasPlayer == v.hasPlayer &&
    r.shouldSeekTo == v.shouldSeekTo && r.seeks == v.seeks &&
    r.isBuffering == v.isBuffering && r.retries == v.retries &&
    r.hasReadyToPlay == v.hasReadyToPlay && r.lastBitrate == v.lastBitrate &&
    r.locks == v.locks && r.timer.alive == v.timer.alive &&
    v.log <= r.log && Completed(r.log) == Completed(v.log)
  }

  /** An engine that reports no failure, no error and no end of the item. */
  predicate Healthy(eng: Engine)
  {
    eng.itemStatus != ItemFailed && eng.playerStatus != EngineFailed && !eng.hasError && !eng.reachedEnd
  }

  predicate Terminal(s: PlayerState)
  {
    s == Error || s == PlayedToTheEnd
  }

  /** With a healthy engine, a step never enters `error` or `playedToTheEnd`. */
  predicate Settles(v: View, r: View, eng: Engine)
  {
    Healthy(eng) && !Terminal(v.state) ==> !Terminal(r.state)
  }

  /** At most one buffering check is queued, exactly while `isBuffering` is set. */
  predicate RetryInv(v: View)
  {
    v.retries <= 1 && (v.retries == 1 <==> v.isBuffering)
  }

  /** `playerItem` is only set while `player` is. */
  predicate ItemNeedsPlayer(v: View)
  {
    v.hasItem ==> v.hasPlayer
  }

  function Emit(v: View, o: Output): (r: View)
    ensures r == v.(log := v.log + [o])
    ensures !o.CompletionInvoked? ==> Completed(r.log) == Completed(v.log)
  {
    CompletedAppend(v.log, [o]);
    v.(log := v.log + [o])
  }

  /** The `state` property observer: one notification, only on a real change. */
  function SetState(v: View, s: PlayerState): (r: View)
    ensures r.state == s
    ensures s != v.state ==> r.log == v.log + [StateChanged(s)]
    ensures s == v.state ==> r == v
    ensures r == v.(state := s, log := r.log)
    ensures Completed(r.log) == Completed(v.log)
  {
    if s != v.state then Emit(v, StateChanged(s)).(state := s) else v
  }

  /** The `isPlaying` property observer. */
  function SetPlaying(v: View, b: bool): (r: View)
    ensures r.isPlaying == b
    ensures b != v.isPlaying ==> r.log == v.log + [PlayingChanged(b)]
    ensures b == v.isPlaying ==> r == v
    ensures r == v.(isPlaying := b, log := r.log)
    ensures Completed(r.log) == Completed(v.log)
  {
    if b != v.isPlaying then Emit(v, PlayingChanged(b)).(isPlaying := b) else v
  }

  /** `pointsHandlers.process(time:)`. */
  function ProcessHandlers(v: View, t: Time): (r: View)
    ensures var res := ProcessList(v.handlers, v.locks, v.tag, t);
      r == v.(handlers := res.actions, log := v.log + AsOutputs(res.calls))
    ensures TickFrame(v, r) && r.state == v.state && r.isPlaying == v.isPlaying && r.timer == v.timer
  {
    var res := ProcessList(v.handlers, v.locks, v.tag, t);
    var outs := AsOutputs(res.calls);
    CompletedAppend(v.log, outs);
    NoCompletionsAmongActions(outs);
    v.(handlers := res.actions, locks := res.locks, log := v.log + outs)
  }

  /** The notifications the end of the item emits from a view not yet at the end. */
  function EndNotes(v: View): seq<Output>
  {
    [StateChanged(PlayedToTheEnd)] + (if v.isPlaying then [PlayingChanged(false)] else [])
  }

  /** The final tick of `moviePlayDidEnd()`: the total duration reported as the current time. */
  function FinalTick(v: View, eng: Engine): (r: View)
    ensures |r.log| > |v.log| && r.log[|v.log|] == PlayTimeChanged(eng.duration, eng.duration)
    ensures var res := ProcessList(v.handlers, v.locks, v.tag, eng.duration);
      r.handlers == res.actions && r.log == v.log + [PlayTimeChanged(eng.duration, eng.duration)] + AsOutputs(res.calls)
    ensures TickFrame(v, r) && r.state == v.state && r.isPlaying == v.isPlaying && r.timer == v.timer
  {
    ProcessHandlers(Emit(v, PlayTimeChanged(eng.duration, eng.duration)), eng.duration)
  }

  /** The settling of `moviePlayDidEnd()`: `playedToTheEnd`, not playing, `playDidEnd`, timer paused. */
  function Finish(v: View): (r: View)
    requires v.state != PlayedToTheEnd
    ensures r.state == PlayedToTheEnd && !r.isPlaying && r.playDidEnd && !r.timer.resumed
    ensures r.timer.pending == v.timer.pending
    ensures r.log == v.log + EndNotes(v) && r.handlers == v.handlers
    ensures TickFrame(v, r)
  {
    var y := SetState(v, PlayedToTheEnd);
    assert y.log == v.log + [StateChanged(PlayedToTheEnd)];
    var x := SetPlaying(y, false);
    assert x.log == y.log + (if v.isPlaying then [PlayingChanged(false)] else []);
    assert x.log == v.log + EndNotes(v);
    CompletedAppend(v.log, EndNotes(v));
    x.(playDidEnd := true, timer := Paused(x.timer))
  }

  /** `moviePlayDidEnd()`: runs once until the state leaves `playedToTheEnd`. */
  function MoviePlayDidEnd(v: View, eng: Engine): (r: View)
    ensures v.state == PlayedToTheEnd ==> r == v
    ensures v.state != PlayedToTheEnd ==>
      r.state == PlayedToTheEnd && !r.isPlaying && r.playDidEnd && !r.timer.resumed &&
      r.timer.pending == v.timer.pending
    ensures v.state != PlayedToTheEnd && v.hasItem ==>
      |r.log| > |v.log| && r.log[|v.log|] == PlayTimeChanged(eng.duration, eng.duration)
    ensures v.state != PlayedToTheEnd ==>
      |r.log| >= |v.log| + |EndNotes(v)| && r.log[|r.log| - |EndNotes(v)|..] == EndNotes(v)
    ensures v.state != PlayedToTheEnd && v.hasItem ==>
      var res := ProcessList(v.handlers, v.locks, v.tag, eng.duration);
      r.handlers == res.actions &&
      r.log == v.log + [PlayTimeChanged(eng.duration, eng.duration)] + AsOutputs(res.calls) + EndNotes(v)
    ensures v.state != PlayedToTheEnd && !v.hasItem ==> r.handlers == v.handlers && r.log == v.log + EndNotes(v)
    ensures TickFrame(v, r)
  {
    if v.state == PlayedToTheEnd then v
    else
      var w := if v.hasItem then FinalTick(v, eng) else v;
      assert EndNotes(w) == EndNotes(v);
      var r := Finish(w);
      assert r.log[|r.log| - |EndNotes(v)|..] == EndNotes(v);
      r
  }

  /** The loading part of `updateStatus(includeLoading: true)`. */
  function LoadingState(eng: Engine): (s: PlayerState)
    ensures s == BufferFinished <==> eng.likelyToKeepUp || eng.bufferFull
    ensures s == Error <==> !(eng.likelyToKeepUp || eng.bufferFull) && eng.itemStatus == ItemFailed
    ensures s == BufferFinished || s == Error || s == Buffering
  {
    if eng.likelyToKeepUp || eng.bufferFull then BufferFinished
    else if eng.itemStatus == ItemFailed then Error
    else Buffering
  }

  /** The first half of `updateStatus`: the state derived from the buffer flags. */
  function LoadStatus(v: View, eng: Engine, includeLoading: bool): (r: View)
    ensures v.hasItem && includeLoading ==> r == SetState(v, LoadingState(eng))
    ensures !(v.hasItem && includeLoading) ==> r == v
    ensures TickFrame(v, r) && r.isPlaying == v.isPlaying && r.timer == v.timer
    ensures Settles(v, r, eng)
  {
    if v.hasItem && includeLoading then SetState(v, LoadingState(eng)) else v
  }

  /** The second half of `updateStatus`: a stopped player with an error, or at the end. */
  function RateStatus(v: View, eng: Engine): (r: View)
    ensures eng.rateIsZero && eng.hasError ==> r == SetState(v, Error)
    ensures eng.rateIsZero && !eng.hasError && v.hasItem && eng.reachedEnd ==> r == MoviePlayDidEnd(v, eng)
    ensures !(eng.rateIsZero && (eng.hasError || (v.hasItem && eng.reachedEnd))) ==> r == v
    ensures TickFrame(v, r) && Settles(v, r, eng) && r.timer.pending == v.timer.pending
  {
    if eng.rateIsZero && eng.hasError then SetState(v, Error)
    else if eng.rateIsZero && v.hasItem && eng.reachedEnd then MoviePlayDidEnd(v, eng)
    else v
  }

  /** `updateStatus(includeLoading:)`. */
  function UpdateStatus(v: View, eng: Engine, includeLoading: bool): (r: View)
    ensures !v.hasPlayer ==> r == v
    ensures v.hasPlayer && eng.rateIsZero && eng.hasError ==> r.state == Error
    ensures v.hasPlayer && eng.rateIsZero && !eng.hasError && v.hasItem && eng.reachedEnd ==>
      r.state == PlayedToTheEnd && (v.state != PlayedToTheEnd || includeLoading ==> !r.isPlaying && r.playDidEnd)
    ensures v.hasPlayer && v.hasItem && includeLoading && !(eng.rateIsZero && (eng.hasError || eng.reachedEnd)) ==>
      r.state == LoadingState(eng)
    ensures !(v.hasItem && includeLoading) && !(eng.rateIsZero && (eng.hasError || (v.hasItem && eng.reachedEnd))) ==>
      r == v
    ensures !(eng.rateIsZero && (eng.hasError || (v.hasItem && eng.reachedEnd))) ==> r.handlers == v.handlers
    ensures TickFrame(v, r) && Settles(v, r, eng) && r.timer.pending == v.timer.pending
  {
    if !v.hasPlayer then v
    else
      var w := LoadStatus(v, eng, includeLoading);
      assert w.state != PlayedToTheEnd ==> w.state == v.state || w.state == LoadingState(eng);
      RateStatus(w, eng)
  }

  /** The time report of `playerTimerAction()`: the current and total time, then the track actions at the current time. */
  function TimeTick(v: View, eng: Engine): (r: View)
    ensures var res := ProcessList(v.handlers, v.locks, v.tag, eng.currentTime);
      r.handlers == res.actions &&
      r.log == v.log + [PlayTimeChanged(eng.currentTime, Finite(eng.totalTime))] + AsOutputs(res.calls)
    ensures TickFrame(v, r) && r.state == v.state && r.isPlaying == v.isPlaying && r.timer == v.timer
  {
    ProcessHandlers(Emit(v, PlayTimeChanged(eng.currentTime, Finite(eng.totalTime))), eng.currentTime)
  }

  /** `playerTimerAction()`: the timer's block. */
  function PlayerTimerAction(v: View, eng: Engine): (r: View)
    ensures !v.hasItem ==> r == v
    ensures v.hasItem && eng.durationKnown ==>
      |r.log| > |v.log| && r.log[|v.log|] == PlayTimeChanged(eng.currentTime, Finite(eng.totalTime))
    ensures v.hasItem && eng.durationKnown ==>
      var res := ProcessList(v.handlers, v.locks, v.tag, eng.currentTime);
      v.log + [PlayTimeChanged(eng.currentTime, Finite(eng.totalTime))] + AsOutputs(res.calls) <= r.log
    ensures v.hasItem && v.hasPlayer && !(eng.rateIsZero && (eng.hasError || eng.reachedEnd)) ==>
      r.state == LoadingState(eng) &&
      r.handlers == (if eng.durationKnown then ProcessList(v.handlers, v.locks, v.tag, eng.currentTime).actions else v.handlers)
    ensures TickFrame(v, r) && Settles(v, r, eng) && r.timer.pending == v.timer.pending
  {
    if !v.hasItem then v
    else
      var w := if eng.durationKnown then TimeTick(v, eng) else v;
      UpdateStatus(w, eng, true)
  }

  /** `fireEvent()`: run the block, then queue the next firing. */
  function FireEvent(v: View, eng: Engine): (r: View)
    ensures var w := PlayerTimerAction(v, eng); r == w.(timer := Scheduled(w.timer))
    ensures r.timer.pending == v.timer.pending + 1
    ensures TickFrame(v, r) && Settles(v, r, eng)
  {
    var w := PlayerTimerAction(v, eng);
    w.(timer := Scheduled(w.timer))
  }

  /** `timer.resume()`: set `resumed` and fire at once. */
  function ResumeTimer(v: View, eng: Engine): (r: View)
    ensures r == FireEvent(v.(timer := Resumed(v.timer)), eng)
    ensures r.timer.pending == v.timer.pending + 1
    ensures !BlockEndsItem(v, eng) ==> r.timer == Scheduled(Resumed(v.timer)) && r.timer.resumed
    ensures TickFrame(v, r) && Settles(v, r, eng)
  {
    var w := v.(timer := Resumed(v.timer));
    assert !BlockEndsItem(w, eng) ==> PlayerTimerAction(w, eng).timer == w.timer by {
      if !BlockEndsItem(w, eng) { BlockKeepsTimer(w, eng); }
    }
    FireEvent(w, eng)
  }

  /** The environment runs one queued timer firing. */
  function RunTimerFiring(v: View, eng: Engine): (r: View)
    requires v.timer.pending > 0
    ensures !(v.timer.resumed && v.timer.alive) ==> r == v.(timer := v.timer.(pending := v.timer.pending - 1))
    ensures v.timer.resumed && v.timer.alive ==> r.timer.pending == v.timer.pending
    ensures v.timer.resumed && v.timer.alive ==> r == FireEvent(v.(timer := FiringTaken(v.timer).next), eng)
    ensures TickFrame(v, r) && Settles(v, r, eng)
  {
    var f := FiringTaken(v.timer);
    var w := v.(timer := f.next);
    if f.fires then FireEvent(w, eng) else w
  }

  /** The timer block reaches the end-of-item handler: a stopped player at the end of its item. */
  predicate BlockEndsItem(v: View, eng: Engine)
  {
    v.hasItem && v.hasPlayer && eng.rateIsZero && !eng.hasError && eng.reachedEnd
  }

  /**
   * The view's timer moves as `Ticking.Apply` says for a firing and for
   * `resume()`, unless the block itself pauses the timer at the end of the
   * item; a firing runs the block exactly when `Apply` says it does.
   */
  lemma FiringFollowsApply(v: View, eng: Engine)
    requires !BlockEndsItem(v, eng) && v.timer.pending > 0
    ensures RunTimerFiring(v, eng).timer == Apply(v.timer, FireOp).next
    ensures Apply(v.timer, FireOp).fires ==>
      RunTimerFiring(v, eng) == FireEvent(v.(timer := FiringTaken(v.timer).next), eng)
    ensures !Apply(v.timer, FireOp).fires ==>
      RunTimerFiring(v, eng) == v.(timer := Apply(v.timer, FireOp).next)
  {
    if v.timer.resumed && v.timer.alive {
      var w := v.(timer := FiringTaken(v.timer).next);
      BlockKeepsTimer(w, eng);
      assert RunTimerFiring(v, eng) == FireEvent(w, eng);
    }
  }

  /** `resume()` and `pause()` move the view's timer as `Ticking.Apply` says, short of the end of the item. */
  lemma ResumeAndPauseFollowApply(v: View, eng: Engine)
    requires !BlockEndsItem(v, eng)
    ensures v.timer.alive ==> ResumeTimer(v, eng).timer == Apply(v.timer, ResumeOp).next
    ensures Pause(v).timer == Apply(v.timer, PauseOp).next
  {
    BlockKeepsTimer(v.(timer := Resumed(v.timer)), eng);
  }

  /** Short of the end of the item, the block leaves the timer as it found it. */
  lemma BlockKeepsTimer(v: View, eng: Engine)
    requires !BlockEndsItem(v, eng)
    ensures PlayerTimerAction(v, eng).timer == v.timer
  {
    if v.hasItem {
      var w := if eng.durationKnown then TimeTick(v, eng) else v;
      assert w.timer == v.timer && w.hasItem && w.hasPlayer == v.hasPlayer;
      if w.hasPlayer {
        var x := LoadStatus(w, eng, true);
        assert RateStatus(x, eng).timer == x.timer;
      }
    }
  }

  /** The engine as the timer block finds it inside `play()`: `player.play()` has set a non-zero rate. */
  function Started(eng: Engine): (e: Engine)
    ensures !e.rateIsZero && e == eng.(rateIsZero := false)
    ensures Healthy(eng) <==> Healthy(e)
  {
    eng.(rateIsZero := false)
  }

  /**
   * `play()`. The engine is told to play before the timer resumes, so the
   * block that runs at once sees a moving player: it never takes the
   * stopped-player branches of `updateStatus`.
   */
  function Play(v: View, eng: Engine): (r: View)
    ensures !v.hasPlayer ==> r == v
    ensures v.hasPlayer ==> r.isPlaying && |r.log| > |v.log| && r.log[|v.log|] == EnginePlay
    ensures v.hasPlayer ==> r.timer.pending == v.timer.pending + 1 && r.timer.resumed
    ensures v.hasPlayer ==> r == SetPlaying(ResumeTimer(Emit(v, EnginePlay), Started(eng)), true)
    ensures v.state != PlayedToTheEnd ==> r.state != PlayedToTheEnd
    ensures v.state != Error ==> r.state != Error || (v.hasItem && eng.itemStatus == ItemFailed && !(eng.likelyToKeepUp || eng.bufferFull))
    ensures TickFrame(v, r) && Settles(v, r, eng)
  {
    if !v.hasPlayer then v else SetPlaying(StartPlayback(v, eng), true)
  }

  /** `player.play()` then `timer.resume()`: the block sees a moving player and takes only the loading branch of `updateStatus`. */
  function StartPlayback(v: View, eng: Engine): (r: View)
    requires v.hasPlayer
    ensures |r.log| > |v.log| && r.log[|v.log|] == EnginePlay
    ensures r.timer.pending == v.timer.pending + 1 && r.timer.resumed
    ensures v.hasItem ==> r.state == LoadingState(eng)
    ensures !v.hasItem ==> r.state == v.state
    ensures TickFrame(v, r) && Settles(v, r, eng)
  {
    ResumeTimer(Emit(v, EnginePlay), Started(eng))
  }

  /** `pause()`. */
  function Pause(v: View): (r: View)
    ensures !r.isPlaying && !r.timer.resumed && r.timer.pending == v.timer.pending
    ensures r == v.(isPlaying := false, timer := Paused(v.timer), log := r.log)
    ensures r.log == v.log + (if v.hasPlayer then [EnginePause] else []) + (if v.isPlaying then [PlayingChanged(false)] else [])
    ensures r.state == v.state && TickFrame(v, r)
  {
    var w := if v.hasPlayer then Emit(v, EnginePause) else v;
    var x := SetPlaying(w, false);
    x.(timer := Paused(x.timer))
  }

  /** `resetPlayer()`: drops the item and the player; the state and a pending seek stay. */
  function ResetPlayer(v: View): (r: View)
    ensures !r.hasItem && !r.hasPlayer && !r.playDidEnd && !r.isPlaying && !r.timer.resumed
    ensures r.state == v.state && r.shouldSeekTo == v.shouldSeekTo && r.seeks == v.seeks
    ensures r.retries == v.retries && r.isBuffering == v.isBuffering && r.handlers == v.handlers
    ensures r.log == v.log + (if v.hasPlayer then [EnginePause] else []) + (if v.isPlaying then [PlayingChanged(false)] else [])
    ensures r == v.(hasItem := false, hasPlayer := false, playDidEnd := false, isPlaying := false,
                    timer := Paused(v.timer), log := r.log)
  {
    var w := v.(playDidEnd := false, hasItem := false);
    var x := w.(timer := Paused(w.timer));
    Pause(x).(hasPlayer := false)
  }

  /** Setting up a new item: `onSetVideoAsset()` with the flags `configPlayer()` leaves behind. */
  function ConfigureItem(v: View): (r: View)
    ensures r.hasItem && r.hasPlayer && !r.playDidEnd
    ensures r == v.(hasItem := true, hasPlayer := true, playDidEnd := false)
  {
    v.(hasItem := true, hasPlayer := true, playDidEnd := false)
  }

  /** `Int64(seconds)`: truncation toward zero. */
  function Trunc(x: real): (n: int)
    ensures x >= 0.0 ==> 0 <= n && n as real <= x < n as real + 1.0
    ensures x < 0.0 ==> n <= 0 && n as real - 1.0 < x <= n as real
  {
    if x >= 0.0 then x.Floor else -((-x).Floor)
  }

  /** `player?.currentItem?.status == .readyToPlay`. */
  predicate ReadyForSeek(v: View, eng: Engine)
  {
    v.hasPlayer && v.hasItem && eng.itemStatus == ItemReadyToPlay
  }

  /** `seek(to:completion:)`. */
  function Seek(v: View, eng: Engine, seconds: Time, completion: Option<Completion>): (r: View)
    ensures seconds.NaN? ==> r == v
    ensures seconds.Finite? ==> r.timer.pending == v.timer.pending + 1
    ensures seconds.Finite? ==> var w := ResumeTimer(v, eng);
      (ReadyForSeek(v, eng) ==> r == Emit(w, EngineSeek(Trunc(seconds.value))).(seeks := w.seeks + [completion])) &&
      (!ReadyForSeek(v, eng) ==> r == w.(shouldSeekTo := Some(PendingSeek(seconds.value, completion))))
    ensures seconds.Finite? && !BlockEndsItem(v, eng) ==> r.timer.resumed
    ensures seconds.Finite? && ReadyForSeek(v, eng) ==>
      r.shouldSeekTo == v.shouldSeekTo && r.seeks == v.seeks + [completion] &&
      |r.log| > 0 && r.log[|r.log| - 1] == EngineSeek(Trunc(seconds.value))
    ensures seconds.Finite? && !ReadyForSeek(v, eng) ==>
      r.shouldSeekTo == Some(PendingSeek(seconds.value, completion)) && r.seeks == v.seeks
    ensures r.hasItem == v.hasItem && r.hasPlayer == v.hasPlayer && r.tag == v.tag
    ensures r.isBuffering == v.isBuffering && r.retries == v.retries && r.hasReadyToPlay == v.hasReadyToPlay
    ensures v.log <= r.log && Completed(r.log) == Completed(v.log)
    ensures Settles(v, r, eng)
  {
    if seconds.NaN? then v
    else
      var w := ResumeTimer(v, eng);
      if ReadyForSeek(w, eng) then
        Emit(w, EngineSeek(Trunc(seconds.value))).(seeks := w.seeks + [completion])
      else
        w.(shouldSeekTo := Some(PendingSeek(seconds.value, completion)))
  }

  /** The caller callbacks a completion invokes, innermost first. */
  function Callbacks(c: Completion): seq<CallbackId>
  {
    match c
    case Callback(id) => [id]
    case ApplyPendingSeek(stored) => if stored.Some? then Callbacks(stored.value) else []
  }

  /** Running a seek completion closure. */
  function RunCompletion(v: View, c: Completion): (r: View)
    ensures Completed(r.log) == Completed(v.log) + Callbacks(c)
    ensures c.ApplyPendingSeek? ==> r.state == ReadyToPlay && r.shouldSeekTo.None? && r.hasReadyToPlay
    ensures c.Callback? ==> r == v.(log := v.log + [CompletionInvoked(c.id)])
    ensures r.hasItem == v.hasItem && r.hasPlayer == v.hasPlayer && r.seeks == v.seeks
    ensures r.isBuffering == v.isBuffering && r.retries == v.retries && r.timer == v.timer
  {
    match c
    case Callback(id) =>
      CompletedAppend(v.log, [CompletionInvoked(id)]);
      Emit(v, CompletionInvoked(id))
    case ApplyPendingSeek(stored) =>
      var w := if stored.Some? then RunCompletion(v, stored.value) else v;
      SetState(w.(shouldSeekTo := None, hasReadyToPlay := true), ReadyToPlay)
  }

  /** The engine calls back the oldest outstanding seek completion. */
  function CompleteSeek(v: View): (r: View)
    requires |v.seeks| > 0
    ensures r.seeks == v.seeks[1..]
    ensures Completed(r.log) == Completed(v.log) + (if v.seeks[0].Some? then Callbacks(v.seeks[0].value) else [])
    ensures !Terminal(v.state) ==> !Terminal(r.state)
    ensures r.isBuffering == v.isBuffering && r.retries == v.retries && r.timer == v.timer
    ensures r.hasItem == v.hasItem && r.hasPlayer == v.hasPlayer
    ensures v.seeks[0].Some? && v.seeks[0].value.ApplyPendingSeek? ==>
      r.state == ReadyToPlay && r.shouldSeekTo.None? && r.hasReadyToPlay
  {
    var w := v.(seeks := v.seeks[1..]);
    if v.seeks[0].Some? then RunCompletion(w, v.seeks[0].value) else w
  }

  /** The `status` branch with the player ready: via `buffering` to `readyToPlay`, or apply the pending seek. */
  function ObserveReady(w: View, eng: Engine): (r: View)
    requires w.state == Buffering
    ensures w.shouldSeekTo.None? ==> r == SetState(w.(hasReadyToPlay := true), ReadyToPlay)
    ensures w.shouldSeekTo.Some? ==> r == ApplyStoredSeek(w, eng)
    ensures r.hasItem == w.hasItem && r.hasPlayer == w.hasPlayer && r.tag == w.tag
    ensures r.isBuffering == w.isBuffering && r.retries == w.retries
    ensures w.log <= r.log && Completed(r.log) == Completed(w.log)
    ensures Healthy(eng) ==> !Terminal(r.state)
  {
    if w.shouldSeekTo.Some? then ApplyStoredSeek(w, eng)
    else SetState(w.(hasReadyToPlay := true), ReadyToPlay)
  }

  /** The seek the status handler issues for `shouldSeekTo`, with its completion wrapped. */
  function ApplyStoredSeek(w: View, eng: Engine): (r: View)
    requires w.shouldSeekTo.Some? && w.state == Buffering
    ensures r == Seek(w, eng, Finite(w.shouldSeekTo.value.seconds), Some(ApplyPendingSeek(w.shouldSeekTo.value.completion)))
    ensures r.hasItem == w.hasItem && r.hasPlayer == w.hasPlayer && r.tag == w.tag
    ensures r.isBuffering == w.isBuffering && r.retries == w.retries
    ensures w.log <= r.log && Completed(r.log) == Completed(w.log)
    ensures Healthy(eng) ==> !Terminal(r.state)
  {
    var p := w.shouldSeekTo.value;
    Seek(w, eng, Finite(p.seconds), Some(ApplyPendingSeek(p.completion)))
  }

  /** `item.status == .failed || player?.status == .failed`. */
  predicate StatusFailed(v: View, eng: Engine)
  {
    eng.itemStatus == ItemFailed || (v.hasPlayer && eng.playerStatus == EngineFailed)
  }

  /** The `status` branch of `observeValue`. */
  function ObserveStatus(v: View, eng: Engine): (r: View)
    ensures !v.hasItem ==> r == v
    ensures v.hasItem && StatusFailed(v, eng) ==> r == SetState(v, Error)
    ensures v.hasItem && !StatusFailed(v, eng) && v.hasPlayer && eng.playerStatus == EngineReadyToPlay ==>
      r == ObserveReady(SetState(v, Buffering), eng)
    ensures v.hasItem && !StatusFailed(v, eng) && !(v.hasPlayer && eng.playerStatus == EngineReadyToPlay) ==> r == v
    ensures r.hasItem == v.hasItem && r.hasPlayer == v.hasPlayer && r.tag == v.tag
    ensures r.isBuffering == v.isBuffering && r.retries == v.retries
    ensures v.log <= r.log && Completed(r.log) == Completed(v.log)
    ensures Settles(v, r, eng)
  {
    if !v.hasItem then v
    else if StatusFailed(v, eng) then SetState(v, Error)
    else if v.hasPlayer && eng.playerStatus == EngineReadyToPlay then ObserveReady(SetState(v, Buffering), eng)
    else v
  }

  /** The status signal with the player ready and nothing pending: `buffering`, then `readyToPlay`. */
  lemma ReadyWithoutPendingSeek(v: View, eng: Engine)
    requires v.hasItem && v.hasPlayer && !StatusFailed(v, eng) && eng.playerStatus == EngineReadyToPlay
    requires v.shouldSeekTo.None?
    ensures var r := ObserveStatus(v, eng);
      r.state == ReadyToPlay && r.hasReadyToPlay && r.shouldSeekTo.None? &&
      r.log == v.log + (if v.state != Buffering then [StateChanged(Buffering)] else []) + [StateChanged(ReadyToPlay)]
  {
  }

  /** The status signal with the player ready and a seek pending: the stored seek is issued or re-stored. */
  lemma ReadyWithPendingSeek(v: View, eng: Engine)
    requires v.hasItem && v.hasPlayer && !StatusFailed(v, eng) && eng.playerStatus == EngineReadyToPlay
    requires v.shouldSeekTo.Some?
    ensures var r := ObserveStatus(v, eng);
      var p := v.shouldSeekTo.value;
      var c := Some(ApplyPendingSeek(p.completion));
      var w := ResumeTimer(SetState(v, Buffering), eng);
      r.timer.pending == v.timer.pending + 1 &&
      (!BlockEndsItem(v, eng) ==> r.timer.resumed) &&
      (ReadyForSeek(v, eng) ==> r == Emit(w, EngineSeek(Trunc(p.seconds))).(seeks := w.seeks + [c])) &&
      (!ReadyForSeek(v, eng) ==> r == w.(shouldSeekTo := Some(PendingSeek(p.seconds, c)))) &&
      (ReadyForSeek(v, eng) ==>
        r.shouldSeekTo == v.shouldSeekTo && r.seeks == v.seeks + [c] &&
        |r.log| > 0 && r.log[|r.log| - 1] == EngineSeek(Trunc(p.seconds))) &&
      (!ReadyForSeek(v, eng) ==>
        r.shouldSeekTo == Some(PendingSeek(p.seconds, c)) && r.seeks == v.seeks)
  {
    var w := SetState(v, Buffering);
    var p := v.shouldSeekTo.value;
    assert w.shouldSeekTo == v.shouldSeekTo && w.seeks == v.seeks && w.timer == v.timer;
    assert ReadyForSeek(w, eng) == ReadyForSeek(v, eng);
    assert ObserveStatus(v, eng) == Seek(w, eng, Finite(p.seconds), Some(ApplyPendingSeek(p.completion)));
  }

  /** The `loadedTimeRanges` branch of `observeValue`. */
  function ObserveLoadedTimeRanges(v: View, eng: Engine): (r: View)
    ensures v.hasItem && eng.loaded.Some? ==> r.log == v.log + [LoadedTimeChanged(eng.loaded.value, eng.duration)]
    ensures !(v.hasItem && eng.loaded.Some?) ==> r == v
    ensures r == v.(log := r.log)
  {
    if v.hasItem && eng.loaded.Some? then Emit(v, LoadedTimeChanged(eng.loaded.value, eng.duration)) else v
  }

  /** `bufferingSomeSecond()`: enter buffering and queue a check unless one is queued. */
  function BufferingSomeSecond(v: View): (r: View)
    ensures r.state == Buffering && r.isBuffering
    ensures v.isBuffering ==> r == SetState(v, Buffering)
    ensures !v.isBuffering ==> r.retries == v.retries + 1
    ensures !v.isBuffering ==> r.log == SetState(v, Buffering).log + (if v.hasPlayer then [EnginePause] else [])
    ensures RetryInv(v) ==> RetryInv(r)
    ensures r.hasItem == v.hasItem && r.hasPlayer == v.hasPlayer && r.timer == v.timer && r.seeks == v.seeks
    ensures Completed(r.log) == Completed(v.log)
  {
    var w := SetState(v, Buffering);
    if w.isBuffering then w else QueueRetryCheck(w)
  }

  /** The part of `bufferingSomeSecond` past the `isBuffering` guard: pause the engine, queue one check. */
  function QueueRetryCheck(w: View): (r: View)
    requires !w.isBuffering
    ensures r.isBuffering && r.retries == w.retries + 1
    ensures r.log == w.log + (if w.hasPlayer then [EnginePause] else [])
    ensures r == w.(isBuffering := true, retries := r.retries, log := r.log)
    ensures Completed(r.log) == Completed(w.log)
  {
    var x := w.(isBuffering := true);
    var y := if x.hasPlayer then Emit(x, EnginePause) else x;
    y.(retries := y.retries + 1)
  }

  /** The environment runs the queued one-second check of `bufferingSomeSecond`. */
  function RunRetryCheck(v: View, eng: Engine): (r: View)
    requires v.retries > 0
    ensures v.hasItem && !eng.likelyToKeepUp ==> r.state == Buffering && r.isBuffering && r.retries == v.retries
    ensures v.hasItem && eng.likelyToKeepUp ==> r.state == BufferFinished && !r.isBuffering && r.retries == v.retries - 1
    ensures !v.hasItem ==> r.state == v.state && !r.isBuffering && r.retries == v.retries - 1
    ensures RetryInv(v) ==> RetryInv(r)
    ensures r.hasItem == v.hasItem && r.hasPlayer == v.hasPlayer && r.timer == v.timer && r.seeks == v.seeks
    ensures Completed(r.log) == Completed(v.log)
    ensures !Terminal(v.state) ==> !Terminal(r.state)
  {
    var w := v.(retries := v.retries - 1, isBuffering := false);
    if !w.hasItem then w
    else if !eng.likelyToKeepUp then BufferingSomeSecond(w)
    else SetState(w, BufferFinished)
  }

  /** The `playbackBufferEmpty` branch of `observeValue`. */
  function ObserveBufferEmpty(v: View, eng: Engine): (r: View)
    ensures v.hasItem && eng.bufferEmpty ==> r == BufferingSomeSecond(SetState(v, Buffering))
    ensures !(v.hasItem && eng.bufferEmpty) ==> r == v
    ensures v.hasItem && eng.bufferEmpty ==>
      r.state == Buffering && r.isBuffering && r.retries == v.retries + (if v.isBuffering then 0 else 1)
    ensures RetryInv(v) ==> RetryInv(r)
  {
    if v.hasItem && eng.bufferEmpty then BufferingSomeSecond(SetState(v, Buffering)) else v
  }

  /** The condition of the `playbackLikelyToKeepUp` branch. */
  predicate LikelyToKeepUpApplies(v: View, eng: Engine)
  {
    v.hasItem && eng.bufferEmpty && v.state != BufferFinished && v.hasReadyToPlay
  }

  /** The `playbackLikelyToKeepUp` branch of `observeValue`. */
  function ObserveLikelyToKeepUp(v: View, eng: Engine): (r: View)
    ensures LikelyToKeepUpApplies(v, eng) ==>
      r.state == BufferFinished && r.playDidEnd && r.log == v.log + [StateChanged(BufferFinished)]
    ensures LikelyToKeepUpApplies(v, eng) ==> r == v.(state := BufferFinished, playDidEnd := true, log := r.log)
    ensures !LikelyToKeepUpApplies(v, eng) ==> r == v
  {
    if LikelyToKeepUpApplies(v, eng) then SetState(v, BufferFinished).(playDidEnd := true) else v
  }

  /** The key paths `observeValue` is told about. */
  datatype KeyPath = Status | LoadedTimeRanges | PlaybackBufferEmpty | PlaybackLikelyToKeepUp | Rate | OtherKey

  /** `observeValue(forKeyPath:of:change:context:)`; the item keys only count for the current item. */
  function ObserveValue(v: View, eng: Engine, key: KeyPath): View
  {
    match key
    case Status => ObserveStatus(v, eng)
    case LoadedTimeRanges => ObserveLoadedTimeRanges(v, eng)
    case PlaybackBufferEmpty => ObserveBufferEmpty(v, eng)
    case PlaybackLikelyToKeepUp => ObserveLikelyToKeepUp(v, eng)
    case Rate => UpdateStatus(v, eng, false)
    case OtherKey => v
  }

  /** `playItemEvent()`: the bitrate of the newest access-log entry, in kbit/s. */
  function PlayItemEvent(v: View, observedBitrate: Option<real>): (r: View)
    ensures v.hasItem && observedBitrate.Some? ==>
      r.lastBitrate == observedBitrate.value / 1000.0 &&
      r.log == v.log + [BitrateChanged(v.lastBitrate, observedBitrate.value / 1000.0)]
    ensures !(v.hasItem && observedBitrate.Some?) ==> r == v
    ensures r == v.(lastBitrate := r.lastBitrate, log := r.log)
  {
    if v.hasItem && observedBitrate.Some? then
      var b := observedBitrate.value / 1000.0;
      Emit(v, BitrateChanged(v.lastBitrate, b)).(lastBitrate := b)
    else v
  }

  /** Appending to `pointsHandlers`. */
  function AddTrackAction(v: View, a: TrackAction): (r: View)
    ensures r.handlers == v.handlers + [a] && r == v.(handlers := r.handlers)
  {
    v.(handlers := v.handlers + [a])
  }

  /** `moviePlayDidEnd()` a second time, in whatever engine state, changes nothing and emits nothing. */
  lemma EndOfItemHandledOnce(v: View, eng1: Engine, eng2: Engine)
    ensures var r := MoviePlayDidEnd(v, eng1);
      r.state == PlayedToTheEnd && MoviePlayDidEnd(r, eng2) == r
  {
  }

  /** The same ready status twice: the second one notifies `buffering` and `readyToPlay` again. */
  lemma RepeatedReadyStatusNotifiesAgain(v: View, eng: Engine)
    requires v.hasItem && v.hasPlayer && !StatusFailed(v, eng) && eng.playerStatus == EngineReadyToPlay
    requires v.shouldSeekTo.None?
    ensures var r1 := ObserveStatus(v, eng);
      ObserveStatus(r1, eng).log == r1.log + [StateChanged(Buffering), StateChanged(ReadyToPlay)]
  {
    var r1 := ObserveStatus(v, eng);
    ReadyWithoutPendingSeek(v, eng);
    ReadyWithoutPendingSeek(r1, eng);
  }

  /** The same failed status twice: only the first one notifies. */
  lemma RepeatedFailedStatusNotifiesOnce(v: View, eng: Engine)
    requires v.hasItem && StatusFailed(v, eng)
    ensures var r1 := ObserveStatus(v, eng);
      r1.state == Error && ObserveStatus(r1, eng) == r1
  {
  }

  /**
   * `seek(to:completion:)` before the item is ready, then the ready status:
   * the engine is told to seek to the stored time, and when it calls back the
   * caller's completion runs exactly once, the slot is cleared and the state
   * settles at `readyToPlay`.
   */
  lemma SeekBeforeReadyCompletesOnce(v: View, eng1: Engine, eng2: Engine, seconds: real, id: CallbackId)
    requires v.hasItem && v.hasPlayer && v.seeks == []
    requires !ReadyForSeek(v, eng1)
    requires !StatusFailed(v, eng2) && eng2.playerStatus == EngineReadyToPlay && eng2.itemStatus == ItemReadyToPlay
    ensures var v1 := Seek(v, eng1, Finite(seconds), Some(Callback(id)));
      var v2 := ObserveStatus(v1, eng2);
      v1.shouldSeekTo == Some(PendingSeek(seconds, Some(Callback(id)))) &&
      |v2.log| > 0 && v2.log[|v2.log| - 1] == EngineSeek(Trunc(seconds)) &&
      |v2.seeks| == 1 &&
      var v3 := CompleteSeek(v2);
      Completed(v3.log) == Completed(v.log) + [id] &&
      v3.shouldSeekTo.None? && v3.hasReadyToPlay && v3.state == ReadyToPlay && v3.seeks == []
  {
    var v1 := Seek(v, eng1, Finite(seconds), Some(Callback(id)));
    assert v1.shouldSeekTo == Some(PendingSeek(seconds, Some(Callback(id)))) && v1.seeks == [];
    assert Completed(v1.log) == Completed(v.log);
    StoredSeekCompletesOnce(v1, eng2, seconds, id);
  }

  /** The second half of the scenario above: from the stored seek to its single completion. */
  lemma StoredSeekCompletesOnce(v1: View, eng2: Engine, seconds: real, id: CallbackId)
    requires v1.hasItem && v1.hasPlayer && v1.seeks == []
    requires v1.shouldSeekTo == Some(PendingSeek(seconds, Some(Callback(id))))
    requires !StatusFailed(v1, eng2) && eng2.playerStatus == EngineReadyToPlay && eng2.itemStatus == ItemReadyToPlay
    ensures var v2 := ObserveStatus(v1, eng2);
      |v2.log| > 0 && v2.log[|v2.log| - 1] == EngineSeek(Trunc(seconds)) &&
      |v2.seeks| == 1 &&
      var v3 := CompleteSeek(v2);
      Completed(v3.log) == Completed(v1.log) + [id] &&
      v3.shouldSeekTo.None? && v3.hasReadyToPlay && v3.state == ReadyToPlay && v3.seeks == []
  {
    ReadyWithPendingSeek(v1, eng2);
    var v2 := ObserveStatus(v1, eng2);
    var c := ApplyPendingSeek(Some(Callback(id)));
    assert v2.seeks == [Some(c)];
    assert Callbacks(c) == [id];
  }

  /** Buffering that never recovers: after three checks one check is still queued, and only one. */
  lemma RetryLoopKeepsOneCheckQueued(v: View, eng: Engine)
    requires RetryInv(v) && v.retries == 1 && v.hasItem && !eng.likelyToKeepUp
    ensures var r := RunRetryCheck(v, eng);
      r.retries == 1 && RunRetryCheck(r, eng).retries == 1 &&
      var r3 := RunRetryCheck(RunRetryCheck(r, eng), eng);
      r3.retries == 1 && r3.isBuffering && r3.state == Buffering && RetryInv(r3)
  {
  }

  /** `n` checks in a row, each run from the one the previous check queued; stops when none is queued. */
  function RetryChecks(v: View, eng: Engine, n: nat): View
    decreases n
  {
    if n == 0 || v.retries == 0 then v else RetryChecks(RunRetryCheck(v, eng), eng, n - 1)
  }

  /** Buffering that never recovers: after any number of checks exactly one check is still queued. */
  lemma {:induction false} RetryLoopKeepsOneCheckQueuedForever(v: View, eng: Engine, n: nat)
    requires RetryInv(v) && v.retries == 1 && v.hasItem && !eng.likelyToKeepUp
    ensures var r := RetryChecks(v, eng, n);
      r.retries == 1 && RetryInv(r) && r.hasItem && (n > 0 ==> r.isBuffering && r.state == Buffering)
    decreases n
  {
    if n > 0 {
      var r := RunRetryCheck(v, eng);
      RetryLoopKeepsOneCheckQueuedForever(r, eng, n - 1);
    }
  }

  /** Everything that can happen to the view: a caller, the engine or a queued task. */
  datatype Input =
    | PlayCall
    | PauseCall
    | SeekCall(seconds: Time, completion: Option<CallbackId>)
    | ResetCall
    | ConfigureCall
    | AddActionCall(action: TrackAction)
    | Observed(key: KeyPath)
    | ItemDidPlayToEnd
    | AccessLogEntry(bitrate: Option<real>)
    | TimerFires
    | RetryFires
    | SeekFinishes

  /** An input together with the engine state at that moment. */
  datatype Event = Event(eng: Engine, input: Input)

  /** One event. A queued task the queue does not hold is nothing. */
  function Step(v: View, e: Event): View
  {
    var eng := e.eng;
    match e.input
    case PlayCall => Play(v, eng)
    case PauseCall => Pause(v)
    case SeekCall(seconds, c) => Seek(v, eng, seconds, if c.Some? then Some(Callback(c.value)) else None)
    case ResetCall => ResetPlayer(v)
    case ConfigureCall => ConfigureItem(v)
    case AddActionCall(a) => AddTrackAction(v, a)
    case Observed(key) => ObserveValue(v, eng, key)
    case ItemDidPlayToEnd => MoviePlayDidEnd(v, eng)
    case AccessLogEntry(b) => PlayItemEvent(v, b)
    case TimerFires => if v.timer.pending > 0 then RunTimerFiring(v, eng) else v
    case RetryFires => if v.retries > 0 then RunRetryCheck(v, eng) else v
    case SeekFinishes => if |v.seeks| > 0 then CompleteSeek(v) else v
  }

  function Run(v: View, events: seq<Event>): View
    decreases |events|
  {
    if events == [] then v else Run(Step(v, events[0]), events[1..])
  }

  /** An event that reports no failure and no end of the item. */
  predicate HealthyEvent(e: Event)
  {
    Healthy(e.eng) && !e.input.ItemDidPlayToEnd?
  }

  lemma StepSettles(v: View, e: Event)
    requires HealthyEvent(e) && !Terminal(v.state)
    ensures !Terminal(Step(v, e).state)
  {
    if e.input.Observed? {
      ObservingSettles(v, e);
    } else if e.input.PlayCall? || e.input.PauseCall? || e.input.TimerFires? {
      TickingSettles(v, e);
    } else {
      OtherInputsSettle(v, e);
    }
  }

  lemma TickingSettles(v: View, e: Event)
    requires HealthyEvent(e) && !Terminal(v.state)
    requires e.input.PlayCall? || e.input.PauseCall? || e.input.TimerFires?
    ensures !Terminal(Step(v, e).state)
  {
  }

  lemma ObservingSettles(v: View, e: Event)
    requires HealthyEvent(e) && !Terminal(v.state) && e.input.Observed?
    ensures !Terminal(Step(v, e).state)
  {
    if e.input.key == PlaybackBufferEmpty && v.hasItem && e.eng.bufferEmpty {
      assert Step(v, e) == BufferingSomeSecond(SetState(v, Buffering));
    }
  }

  lemma OtherInputsSettle(v: View, e: Event)
    requires HealthyEvent(e) && !Terminal(v.state)
    requires !(e.input.Observed? || e.input.PlayCall? || e.input.PauseCall? || e.input.TimerFires?)
    ensures !Terminal(Step(v, e).state)
  {
    match e.input
    case SeekCall(seconds, c) =>
      assert Step(v, e) == Seek(v, e.eng, seconds, if c.Some? then Some(Callback(c.value)) else None);
    case RetryFires =>
      assert Step(v, e) == if v.retries > 0 then RunRetryCheck(v, e.eng) else v;
    case SeekFinishes =>
      assert Step(v, e) == if |v.seeks| > 0 then CompleteSeek(v) else v;
    case _ =>
  }

  /** With an engine that never fails nor ends, the player never reaches `error` or `playedToTheEnd`. */
  lemma {:induction false} HealthyRunNeverFails(v: View, events: seq<Event>)
    requires !Terminal(v.state)
    requires forall i :: 0 <= i < |events| ==> HealthyEvent(events[i])
    ensures !Terminal(Run(v, events).state)
    decreases |events|
  {
    if events != [] {
      StepSettles(v, events[0]);
      HealthyRunNeverFails(Step(v, events[0]), events[1..]);
    }
  }

  lemma StepKeepsInvariants(v: View, e: Event)
    requires RetryInv(v) && ItemNeedsPlayer(v)
    ensures RetryInv(Step(v, e)) && ItemNeedsPlayer(Step(v, e))
  {
    if e.input.Observed? {
      ObservingKeepsInvariants(v, e.eng, e.input.key);
    } else if e.input.PlayCall? || e.input.PauseCall? || e.input.ItemDidPlayToEnd? || e.input.TimerFires? {
      TickingKeepsInvariants(v, e);
    } else {
      OtherInputsKeepInvariants(v, e);
    }
  }

  lemma TickingKeepsInvariants(v: View, e: Event)
    requires RetryInv(v) && ItemNeedsPlayer(v)
    requires e.input.PlayCall? || e.input.PauseCall? || e.input.ItemDidPlayToEnd? || e.input.TimerFires?
    ensures RetryInv(Step(v, e)) && ItemNeedsPlayer(Step(v, e))
  {
  }

  lemma OtherInputsKeepInvariants(v: View, e: Event)
    requires RetryInv(v) && ItemNeedsPlayer(v)
    requires !(e.input.Observed? || e.input.PlayCall? || e.input.PauseCall? || e.input.ItemDidPlayToEnd? || e.input.TimerFires?)
    ensures RetryInv(Step(v, e)) && ItemNeedsPlayer(Step(v, e))
  {
  }

  lemma ObservingKeepsInvariants(v: View, eng: Engine, key: KeyPath)
    requires RetryInv(v) && ItemNeedsPlayer(v)
    ensures RetryInv(ObserveValue(v, eng, key)) && ItemNeedsPlayer(ObserveValue(v, eng, key))
  {
    var r := ObserveValue(v, eng, key);
    match key
    case Status =>
      assert r == ObserveStatus(v, eng);
    case LoadedTimeRanges =>
      assert r == ObserveLoadedTimeRanges(v, eng);
    case PlaybackBufferEmpty =>
      if v.hasItem && eng.bufferEmpty {
        assert r == BufferingSomeSecond(SetState(v, Buffering));
        assert RetryInv(SetState(v, Buffering));
      }
    case PlaybackLikelyToKeepUp =>
      assert r == ObserveLikelyToKeepUp(v, eng);
    case Rate =>
      assert r == UpdateStatus(v, eng, false) && TickFrame(v, r);
    case OtherKey =>
  }

  /** Whatever happens, at most one buffering check is queued, and only while `isBuffering` is set. */
  lemma {:induction false} RunKeepsInvariants(v: View, events: seq<Event>)
    requires RetryInv(v) && ItemNeedsPlayer(v)
    ensures RetryInv(Run(v, events)) && ItemNeedsPlayer(Run(v, events))
    decreases |events|
  {
    if events != [] {
      StepKeepsInvariants(v, events[0]);
      RunKeepsInvariants(Step(v, events[0]), events[1..]);
    }
  }
}
