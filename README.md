# Player playback core, modelled in Dafny

This project models the playback core of the iOS `Player` library and proves
properties of that model. The core has three parts:

* **`Guard`** (Player/Guard.swift) is a process-wide set of integer tags that
  prevents recursion. `lock(tag)` fails when the tag is held. Otherwise it
  inserts the tag and returns an `unlock` closure that removes it again.
* **Track actions** (Player/TrackAction.swift) are time-triggered callbacks:
  `once`, `oncePrecise` and `any`. On every tick, `process(time:)` walks the
  list in order under the guard, fires the entries that are due and keeps the
  entries whose own `process` returned `true`. A NaN time is skipped.
* **`PlayerLayerView`** (Player/PlayerLayerView.swift) is the playback
  controller:
  - the observed `state` and `isPlaying` properties;
  - the private chained `Timer`;
  - `play`, `pause`, `seek(to:completion:)` with its pending-seek slot
    `shouldSeekTo`, and `resetPlayer`;
  - the timer block `playerTimerAction`, `updateStatus` and the end-of-item
    handler;
  - the key-value observation branches, the one-second buffering retry
    `bufferingSomeSecond`, and the bitrate handler `playItemEvent`.

## Layout

| file | module | contents |
|---|---|---|
| `wrappers.dfy` | `Wrappers` | `Option` |
| `guard.dfy` | `Guards` | the lock set as functions, and class `Guard` |
| `track_action.dfy` | `TrackActions` | `TrackAction`, the per-entry and the per-list processing, lemmas, and class `TrackList` with the filtering loop |
| `timer.dfy` | `Ticking` | the timer state as functions, lemmas about runs of timer operations, and class `Timer` |
| `player_model.dfy` | `PlayerModel` | a `View` record of the view's fields, one function per handler, and lemmas about single handlers and whole runs |
| `player_layer_view.dfy` | `PlayerLayer` | class `PlayerLayerView`, whose methods update the fields step by step |

### How the model works

**The engine.** `AVPlayer` and its current item become an `Engine` record. A
handler reads the record at the moment it runs, and it stays fixed while the
handler runs, with one exception. Inside `play()`, `player.play()` makes the
rate non-zero before `timer.resume()` runs the block. So the block sees the
record with a non-zero rate (`PlayerModel.Started`). The record holds:
- the item status and the player status;
- `likelyToKeepUp`, `bufferFull` and `bufferEmpty`;
- whether the rate is zero and whether the player has an error;
- whether the current time has reached the duration;
- whether the duration is known;
- the current time, the duration and the loaded range.

**The output log.** One log records, in order:
- every delegate notification;
- every engine command: `play`, `pause` and `seek`, the last with its
  `Int64` target;
- every call of a track action or of a seek completion.

**Callbacks.** A callback is an identifier. One `Completion` value models
either a caller's seek completion or the closure that the `status` handler
wraps around a pending seek.

**Delayed dispatch.** Each source of later work is a queue that the
environment runs one entry at a time:
- the timer's `asyncAfter` firings are counted in `Timer.pending`;
- the `asyncAfter` check of `bufferingSomeSecond` is counted in `retries`;
- the completions of engine seeks wait in `seeks`, in first-in first-out
  order.

**Events.** `PlayerModel.Step` applies one event: a caller's call, an engine
notification or a queued task. `PlayerModel.Run` applies a sequence of them.

`PlayerLayerView` keeps the same fields as the `View` record. Most of its
methods are proved to leave the object in the state that the model function of
the same name computes from the old state. The lemmas about the functions
therefore hold of the object. `IssueSeek` is the second half of `Seek` and is
specified directly. `HandleCall`, `HandleEngine` and `HandleQueued` each match
`Step` for one kind of event. `Handle` ties every event to `Step` and
preserves the view's invariant.

### Where the code departs from what a reader might expect (the model follows the code)

- **Reset.** The only comment on `resetPlayer` is "resets the player's state"
  (Player/PlayerLayerView.swift:289). One might expect it to return the view to
  `notSetURL` and drop a pending seek. It does neither. It keeps `state` and
  `shouldSeekTo`. It clears `playDidEnd`, drops the item and the player, and
  pauses through `pause()`. `PlayerModel.ResetPlayer` states this.
- **A repeated status signal.** One might expect a repeated status signal to
  change nothing. This holds for a failed status
  (`PlayerModel.RepeatedFailedStatusNotifiesOnce`). It does not hold for a
  ready status: every ready status sets `buffering`, then `readyToPlay`, and so
  notifies both again (`PlayerModel.RepeatedReadyStatusNotifiesAgain`).
- **The `playbackLikelyToKeepUp` branch.** It tests `isPlaybackBufferEmpty`,
  not `isPlaybackLikelyToKeepUp`, and when it fires it sets `playDidEnd`. The
  model keeps both exactly as written (`PlayerModel.ObserveLikelyToKeepUp`).

## Model

| member | source | states |
|---|---|---|
| Guards.TryAcquire | Player/Guard.swift:43-49 | locking succeeds exactly when the tag is absent; on success the unlocker carries that tag and the set gains exactly that tag; on failure the set is unchanged; a lock never removes a tag |
| Guards.Released | Player/Guard.swift:52-54 | unlocking removes the unlocker's tag, leaves every other tag's membership as it was, and never adds a tag |
| Guards.SecondLockFails | Player/Guard.swift:44-46 | two locks of the same tag with no unlock in between: the second fails and leaves the set as the first left it |
| Guards.LockThenUnlockRestores | Player/Guard.swift:43-54 | for an absent tag, a lock followed by its unlock restores the original set |
| Guards.Guard.constructor | Player/Guard.swift:15 | the static set starts empty |
| Guards.Guard.Lock | Player/Guard.swift:43-49 | the object's set and the returned unlocker are what `TryAcquire` gives; success exactly when the tag was absent; afterwards the tag is held |
| Guards.Guard.Unlock | Player/Guard.swift:52-54 | the set becomes the old set without the unlocker's tag |
| TrackActions.ProcessAction | Player/TrackAction.swift:16-30 | `once` fires and is dropped iff `when <= t`; `oncePrecise` is kept iff `t` is before or past `[when, when + precision]`, and fires otherwise; `any` is always kept and called with exactly `t`; a one-shot entry fires iff it is dropped; an entry fires iff it is due |
| TrackActions.KeptAppend | Player/TrackAction.swift:37 | filtering a concatenation keeps the kept entries of each part, in order |
| TrackActions.CallsAppend | Player/TrackAction.swift:37 | the calls made while filtering a concatenation are those of the first part followed by those of the second |
| TrackActions.KeptIsSubsequence | Player/TrackAction.swift:37 | the filtered list is a subsequence of the original list, in the original order |
| TrackActions.KeptMembership | Player/TrackAction.swift:37 | an entry is in the filtered list iff it was in the list and its own processing keeps it |
| TrackActions.NothingDueRemains | Player/TrackAction.swift:18-25 | after a tick at `t`, no remaining `once` has `when <= t` and no remaining `oncePrecise` has `t` in its window |
| TrackActions.SecondTickFiresOnlyAny | Player/TrackAction.swift:16-37 | a second tick at the same time drops nothing and calls exactly the `any` entries, in list order |
| TrackActions.AnyEntriesPersist | Player/TrackAction.swift:26-28 | a tick never drops an `any` entry, so later ticks call the same `any` entries |
| TrackActions.ProcessList | Player/TrackAction.swift:34-40 | a NaN time, or a held tag, leaves the list unchanged and calls nothing; otherwise the list becomes the kept entries and the calls are made in list order; the guard set afterwards equals the set before |
| TrackActions.OnceFiresOnceAtTen | Player/TrackAction.swift:18-21 | `once(when: 10)` ticked at 5, 9, 10 and 15 fires exactly once, at the tick at 10, and is then gone |
| TrackActions.SkippedWindowNeverFires | Player/TrackAction.swift:22-25 | `oncePrecise(10, 2)` ticked at 5, 13 and 20 never fires and stays in the list |
| TrackActions.AnyFiresEveryTick | Player/TrackAction.swift:26-28 | an `any` entry ticked at 1, NaN, 2 and 3 is called with 1, 2 and 3 and stays |
| TrackActions.TrackList.constructor | Player/PlayerLayerView.swift:215 | `pointsHandlers` starts empty |
| TrackActions.TrackList.Add | Player/PlayerLayerView.swift:215 | appending a track action puts it at the end of the list |
| TrackActions.TrackList.Process | Player/TrackAction.swift:34-40 | the loop leaves the list, the guard set and the calls as `ProcessList` gives them |
| Ticking.Resumed | Player/PlayerLayerView.swift:36-37 | `resume` sets `resumed` and changes nothing else |
| Ticking.Paused | Player/PlayerLayerView.swift:41-43 | `pause` clears `resumed` and changes nothing else |
| Ticking.Scheduled | Player/PlayerLayerView.swift:24-29 | `runNext` queues exactly one more firing |
| Ticking.Released | Player/PlayerLayerView.swift:45-48 | `deinit` clears `resumed` and drops the block |
| Ticking.FiringTaken | Player/PlayerLayerView.swift:25-27 | a queued firing leaves the queue; it goes on to `fireEvent` iff the timer is resumed and still alive |
| Ticking.Apply | Player/PlayerLayerView.swift:24-48 | `resume` runs the block at once and queues one firing; a firing while resumed runs the block and re-queues itself; a firing while paused runs nothing; `pause` and `deinit` run nothing |
| Ticking.PausedTimerStaysSilent | Player/PlayerLayerView.swift:24-43 | after `pause`, the block does not run until the next `resume` |
| Ticking.ReleasedTimerStaysSilent | Player/PlayerLayerView.swift:25-48 | after `deinit`, the block never runs again and the queue never grows |
| Ticking.ResumedTimerKeepsFiring | Player/PlayerLayerView.swift:24-34 | while resumed, n queued firings run the block exactly n times and leave one firing queued, as before |
| Ticking.Timer.constructor | Player/PlayerLayerView.swift:17-22 | a new timer is not resumed, has its block and has nothing queued |
| Ticking.Timer.Resume | Player/PlayerLayerView.swift:36-37 | the object's state becomes `Resumed` of the old state |
| Ticking.Timer.RunNext | Player/PlayerLayerView.swift:24-29 | the object's state becomes `Scheduled` of the old state |
| Ticking.Timer.Pause | Player/PlayerLayerView.swift:41-43 | the object's state becomes `Paused` of the old state |
| Ticking.Timer.Deinit | Player/PlayerLayerView.swift:45-48 | the object's state becomes `Released` of the old state |
| Ticking.Timer.TakeFiring | Player/PlayerLayerView.swift:25-27 | the new state and the answer are what `FiringTaken` gives |
| PlayerModel.Initial | Player/PlayerLayerView.swift:181 | a new view is in `notSetURL` with no item and no player |
| PlayerModel.SetState | Player/PlayerLayerView.swift:181-187 | assigning `state` emits exactly one notification carrying the new value iff it differs from the old one, and nothing otherwise; nothing else changes |
| PlayerModel.SetPlaying | Player/PlayerLayerView.swift:155-161 | assigning `isPlaying` notifies iff the value changes; nothing else changes |
| PlayerModel.ProcessHandlers | Player/PlayerLayerView.swift:394 | `pointsHandlers.process(time:)` replaces the list and logs the calls as `ProcessList` gives them; state, playing flag and timer are untouched |
| PlayerModel.FinalTick | Player/PlayerLayerView.swift:431-437 | the end-of-item tick reports the duration as the current time, then processes the track actions at that time: the list becomes the entries `ProcessList` keeps and the log gains exactly the time report followed by the calls; state, playing flag and timer are untouched |
| PlayerModel.Finish | Player/PlayerLayerView.swift:439-442 | the settling leaves `playedToTheEnd`, not playing, `playDidEnd` set and the timer paused, and appends exactly the state and playing notifications |
| PlayerModel.MoviePlayDidEnd | Player/PlayerLayerView.swift:429-444 | already at the end: no change at all; from any other state: `playedToTheEnd`, not playing, `playDidEnd`, the timer paused and its queue unchanged; with an item, the track actions become those `ProcessList` keeps at the duration and the log gains exactly the time report, the calls, then the end notifications; without an item, the track actions are kept and the log gains only the end notifications |
| PlayerModel.LoadingState | Player/PlayerLayerView.swift:402-408 | `bufferFinished` iff likely to keep up or the buffer is full; otherwise `error` iff the item failed; otherwise `buffering` |
| PlayerModel.LoadStatus | Player/PlayerLayerView.swift:401-409 | with an item and loading included, the state becomes `LoadingState`; otherwise nothing changes |
| PlayerModel.RateStatus | Player/PlayerLayerView.swift:410-424 | with the rate at zero: an error gives `error`; otherwise reaching the end runs the end-of-item handler; otherwise nothing changes |
| PlayerModel.UpdateStatus | Player/PlayerLayerView.swift:399-426 | no player: no change; an error at rate zero ends in `error`; the end reached at rate zero ends in `playedToTheEnd`; otherwise, with loading, the state is `LoadingState`; the timer queue is untouched |
| PlayerModel.PlayerTimerAction | Player/PlayerLayerView.swift:387-397 | no item: no change; a known duration first logs the current and total time and then the track-action calls at the current time; unless the rate is zero with an error or at the end, the state becomes `LoadingState` and the track actions are those `ProcessList` keeps (or unchanged when the duration is unknown); the timer queue is untouched |
| PlayerModel.TimeTick | Player/PlayerLayerView.swift:390-395 | the time report of the block: the log gains the current and total time followed by the track-action calls, and the list becomes the entries `ProcessList` keeps; state, playing flag and timer are untouched |
| PlayerModel.FireEvent | Player/PlayerLayerView.swift:31-34 | the result is the timer block's result with exactly one more firing queued |
| PlayerModel.ResumeTimer | Player/PlayerLayerView.swift:36-39 | `resume` marks the timer resumed and then fires at once: the result is `FireEvent` of the resumed view, so the block runs and one firing is queued; short of the end of the item the timer is left resumed, with exactly that firing added |
| PlayerModel.RunTimerFiring | Player/PlayerLayerView.swift:25-28 | a queued firing of a paused or released timer only leaves the queue; one of a resumed, live timer is `FireEvent` after the firing leaves the queue, so the block runs and the firing re-queues itself |
| PlayerModel.BlockKeepsTimer | Player/PlayerLayerView.swift:387-426 | short of the end of the item, the timer block leaves the timer exactly as it was |
| PlayerModel.FiringFollowsApply | Player/PlayerLayerView.swift:24-34 | short of the end of the item, a queued firing moves the view's timer as `Ticking.Apply` moves the timer state, and runs the block exactly when `Apply` says it fires |
| PlayerModel.ResumeAndPauseFollowApply | Player/PlayerLayerView.swift:36-43 | short of the end of the item, `resume` of a live timer and `pause` move the view's timer as `Ticking.Apply` moves the timer state |
| PlayerModel.Play | Player/PlayerLayerView.swift:251-257 | no player: no change; otherwise the engine is told to play first, the timer is resumed with one more firing queued, the block runs on the engine with a non-zero rate, and the view is playing; play never leads into `playedToTheEnd`, and into `error` only from a failed item that is not buffered |
| PlayerModel.Started | Player/PlayerLayerView.swift:253 | after `player.play()` the engine reports a non-zero rate and nothing else changes; it is healthy exactly when it was before |
| PlayerModel.StartPlayback | Player/PlayerLayerView.swift:253-254 | `player.play()` then `timer.resume()`: the play command is logged first, one firing is queued, and the block takes only the loading branch: with an item the state becomes `LoadingState`, without one it is unchanged |
| PlayerModel.Pause | Player/PlayerLayerView.swift:260-264 | the engine is told to pause if there is a player; the view stops playing, notifying iff it was playing; the timer is paused with its queue kept; every other field, including the track actions and `playDidEnd`, is unchanged |
| PlayerModel.ResetPlayer | Player/PlayerLayerView.swift:290-307 | no item and no player, `playDidEnd` cleared, not playing, timer paused; every other field is kept: `state`, the pending seek, `hasReadyToPlay`, the timer queue, the seek and retry queues, the buffering flag, the bitrate, the track actions, the guard set and the tag; the log gains only the pause command and the playing notification |
| PlayerModel.ConfigureItem | Player/PlayerLayerView.swift:339-343 | a new asset gives an item and a player and clears `playDidEnd` |
| PlayerModel.Trunc | Player/PlayerLayerView.swift:329 | `Int64(seconds)` rounds toward zero: the result is the integer part, below or above zero |
| PlayerModel.Seek | Player/PlayerLayerView.swift:325-336 | NaN: no change at all; otherwise `timer.resume()` runs first (the result is built on `ResumeTimer` of the view, so the block runs at the pre-seek time and one firing is queued, and short of the end of the item the timer stays resumed); then a ready item gets an engine seek to the truncated time with the completion queued and the slot untouched, and otherwise the slot becomes `(seconds, completion)`, overwriting an earlier one; no completion runs yet |
| PlayerModel.RunCompletion | Player/PlayerLayerView.swift:457-462 | a caller's completion is invoked once; the wrapped completion invokes the stored one, then clears the slot, sets `hasReadyToPlay` and ends in `readyToPlay` |
| PlayerModel.CompleteSeek | Player/PlayerLayerView.swift:330-332 | the oldest outstanding seek completes and invokes exactly its callbacks; a state outside `error` and `playedToTheEnd` stays outside them |
| PlayerModel.ObserveReady | Player/PlayerLayerView.swift:456-466 | with nothing pending the view sets `hasReadyToPlay` and ends in `readyToPlay`; with a pending seek it issues that seek with the wrapped completion |
| PlayerModel.ApplyStoredSeek | Player/PlayerLayerView.swift:456-462 | the stored seek is issued with its completion wrapped; no completion runs yet |
| PlayerModel.ObserveStatus | Player/PlayerLayerView.swift:451-467 | no item: no change; a failed item or player gives `error`; a ready player goes to `buffering` and then as `ObserveReady` says; otherwise no change |
| PlayerModel.ReadyWithoutPendingSeek | Player/PlayerLayerView.swift:463-466 | a ready status with nothing pending ends in `readyToPlay` with `hasReadyToPlay`, notifying `buffering` (when it is a change) and then `readyToPlay` |
| PlayerModel.ReadyWithPendingSeek | Player/PlayerLayerView.swift:455-462 | a ready status with a pending seek goes to `buffering`, then `timer.resume()` runs the block (the result is built on `ResumeTimer` of that view, and the timer stays resumed short of the end of the item); then the stored seek is issued with its completion wrapped, or re-stored with the wrapped completion when the item is not yet ready |
| PlayerModel.ObserveLoadedTimeRanges | Player/PlayerLayerView.swift:469-475 | a known loaded range is reported with the duration; otherwise nothing changes |
| PlayerModel.BufferingSomeSecond | Player/PlayerLayerView.swift:522-532 | always `buffering`; while a check is queued nothing more happens; otherwise the engine is paused and exactly one check is queued; at most one check is ever queued |
| PlayerModel.QueueRetryCheck | Player/PlayerLayerView.swift:529-534 | past the `isBuffering` guard: `isBuffering` is set, the engine is told to pause when there is a player, and exactly one check is queued; nothing else changes |
| PlayerModel.RunRetryCheck | Player/PlayerLayerView.swift:534-546 | the check clears `isBuffering`; with an item not likely to keep up it re-enters buffering; otherwise with an item it gives `bufferFinished`; at most one check remains queued |
| PlayerModel.ObserveBufferEmpty | Player/PlayerLayerView.swift:477-482 | an empty buffer with an item enters `buffering` with `isBuffering` set, queuing a retry check only when none was queued; otherwise nothing changes; the retry invariant is preserved |
| PlayerModel.ObserveLikelyToKeepUp | Player/PlayerLayerView.swift:483-489 | `bufferFinished` and `playDidEnd` are set, with one notification, only when the buffer is empty, the state is not `bufferFinished` and `hasReadyToPlay` holds; otherwise nothing changes |
| PlayerModel.PlayItemEvent | Player/PlayerLayerView.swift:218-224 | with an access-log entry, the notification carries the previous shared bitrate and the new one in kbit/s, and the new one is stored; otherwise nothing changes |
| PlayerModel.AddTrackAction | Player/PlayerLayerView.swift:215 | a track action is appended to `pointsHandlers` |
| PlayerModel.EndOfItemHandledOnce | Player/PlayerLayerView.swift:429-444 | a second end-of-item call in any engine state changes nothing and emits nothing |
| PlayerModel.RepeatedReadyStatusNotifiesAgain | Player/PlayerLayerView.swift:454-466 | a second identical ready status notifies `buffering` and `readyToPlay` again |
| PlayerModel.RepeatedFailedStatusNotifiesOnce | Player/PlayerLayerView.swift:452-453 | a second identical failed status changes nothing |
| PlayerModel.SeekBeforeReadyCompletesOnce | Player/PlayerLayerView.swift:455-462 | a seek before the item is ready, then the ready status, then the engine's completion: the stored time is sought, the caller's completion runs exactly once, the slot is cleared and the state is `readyToPlay` |
| PlayerModel.StoredSeekCompletesOnce | Player/PlayerLayerView.swift:455-462 | from a stored seek and no outstanding ones: the ready status issues the engine seek to the truncated stored time, and its completion runs the caller's completion exactly once, clears the slot and ends in `readyToPlay` |
| PlayerModel.RetryLoopKeepsOneCheckQueued | Player/PlayerLayerView.swift:534-546 | buffering that never recovers keeps exactly one check queued after each of three checks, and stays in `buffering` |
| PlayerModel.RetryLoopKeepsOneCheckQueuedForever | Player/PlayerLayerView.swift:534-546 | the same after any number of checks, each run from the check the previous one queued: exactly one check stays queued, the retry invariant holds, and the view is in `buffering` |
| PlayerModel.StepSettles | Player/PlayerLayerView.swift:399-444 | with an engine reporting no failure, no error and no end, no event leads into `error` or `playedToTheEnd` |
| PlayerModel.ObservingSettles | Player/PlayerLayerView.swift:447-499 | the same for every observation branch |
| PlayerModel.TickingSettles | Player/PlayerLayerView.swift:251-264 | the same for play, pause and timer firings |
| PlayerModel.OtherInputsSettle | Player/PlayerLayerView.swift:290-336 | the same for seek, reset, a new asset, new track actions, retry checks, seek completions and bitrate entries |
| PlayerModel.HealthyRunNeverFails | Player/PlayerLayerView.swift:399-444 | the same for every run of such events |
| PlayerModel.StepKeepsInvariants | Player/PlayerLayerView.swift:522-547 | every event keeps at most one buffering check queued, exactly while `isBuffering` is set, and keeps an item only with a player |
| PlayerModel.ObservingKeepsInvariants | Player/PlayerLayerView.swift:447-499 | the same for every observation branch |
| PlayerModel.TickingKeepsInvariants | Player/PlayerLayerView.swift:251-264 | the same for play, pause, the end of the item and timer firings |
| PlayerModel.OtherInputsKeepInvariants | Player/PlayerLayerView.swift:290-336 | the same for seek, reset, a new asset, new track actions, retry checks, seek completions and bitrate entries |
| PlayerModel.RunKeepsInvariants | Player/PlayerLayerView.swift:522-547 | the same for every run of events |
| PlayerLayer.BitrateMemo.constructor | Player/PlayerLayerView.swift:125 | the shared last bitrate starts at 0 |
| PlayerLayer.PlayerLayerView.constructor | Player/PlayerLayerView.swift:181 | a new view is `Initial`, with a fresh timer and an empty track-action list |
| PlayerLayer.PlayerLayerView.SetState | Player/PlayerLayerView.swift:181-187 | the object becomes `PlayerModel.SetState` of its old state |
| PlayerLayer.PlayerLayerView.SetPlaying | Player/PlayerLayerView.swift:155-161 | the object becomes `PlayerModel.SetPlaying` of its old state |
| PlayerLayer.PlayerLayerView.ProcessHandlers | Player/PlayerLayerView.swift:394 | the object becomes `PlayerModel.ProcessHandlers` of its old state |
| PlayerLayer.PlayerLayerView.FinalTick | Player/PlayerLayerView.swift:431-437 | the object becomes `PlayerModel.FinalTick` of its old state |
| PlayerLayer.PlayerLayerView.Finish | Player/PlayerLayerView.swift:439-442 | the object becomes `PlayerModel.Finish` of its old state |
| PlayerLayer.PlayerLayerView.MoviePlayDidEnd | Player/PlayerLayerView.swift:429-444 | the object becomes `PlayerModel.MoviePlayDidEnd` of its old state |
| PlayerLayer.PlayerLayerView.UpdateStatus | Player/PlayerLayerView.swift:399-426 | the object becomes `PlayerModel.UpdateStatus` of its old state |
| PlayerLayer.PlayerLayerView.PlayerTimerAction | Player/PlayerLayerView.swift:387-397 | the object becomes `PlayerModel.PlayerTimerAction` of its old state |
| PlayerLayer.PlayerLayerView.FireEvent | Player/PlayerLayerView.swift:31-34 | the object becomes `PlayerModel.FireEvent` of its old state |
| PlayerLayer.PlayerLayerView.ResumeTimer | Player/PlayerLayerView.swift:36-39 | the object becomes `PlayerModel.ResumeTimer` of its old state |
| PlayerLayer.PlayerLayerView.RunTimerFiring | Player/PlayerLayerView.swift:25-28 | the object becomes `PlayerModel.RunTimerFiring` of its old state |
| PlayerLayer.PlayerLayerView.Play | Player/PlayerLayerView.swift:251-257 | the object becomes `PlayerModel.Play` of its old state |
| PlayerLayer.PlayerLayerView.Pause | Player/PlayerLayerView.swift:260-264 | the object becomes `PlayerModel.Pause` of its old state |
| PlayerLayer.PlayerLayerView.ResetPlayer | Player/PlayerLayerView.swift:290-307 | the object becomes `PlayerModel.ResetPlayer` of its old state |
| PlayerLayer.PlayerLayerView.ConfigureItem | Player/PlayerLayerView.swift:339-343 | the object becomes `PlayerModel.ConfigureItem` of its old state |
| PlayerLayer.PlayerLayerView.AddTrackAction | Player/PlayerLayerView.swift:215 | the object becomes `PlayerModel.AddTrackAction` of its old state |
| PlayerLayer.PlayerLayerView.IssueSeek | Player/PlayerLayerView.swift:328-335 | a ready item gets the engine seek and a queued completion; otherwise the slot is written |
| PlayerLayer.PlayerLayerView.Seek | Player/PlayerLayerView.swift:325-336 | the object becomes `PlayerModel.Seek` of its old state |
| PlayerLayer.PlayerLayerView.RunCompletion | Player/PlayerLayerView.swift:457-462 | the object becomes `PlayerModel.RunCompletion` of its old state |
| PlayerLayer.PlayerLayerView.CompleteSeek | Player/PlayerLayerView.swift:330-332 | the object becomes `PlayerModel.CompleteSeek` of its old state |
| PlayerLayer.PlayerLayerView.ObserveStatus | Player/PlayerLayerView.swift:451-467 | the object becomes `PlayerModel.ObserveStatus` of its old state |
| PlayerLayer.PlayerLayerView.ObserveLoadedTimeRanges | Player/PlayerLayerView.swift:469-475 | the object becomes `PlayerModel.ObserveLoadedTimeRanges` of its old state |
| PlayerLayer.PlayerLayerView.BufferingSomeSecond | Player/PlayerLayerView.swift:522-532 | the object becomes `PlayerModel.BufferingSomeSecond` of its old state |
| PlayerLayer.PlayerLayerView.QueueRetryCheck | Player/PlayerLayerView.swift:529-534 | the object becomes `PlayerModel.QueueRetryCheck` of its old state |
| PlayerLayer.PlayerLayerView.RunRetryCheck | Player/PlayerLayerView.swift:534-546 | the object becomes `PlayerModel.RunRetryCheck` of its old state |
| PlayerLayer.PlayerLayerView.ObserveBufferEmpty | Player/PlayerLayerView.swift:477-482 | the object becomes `PlayerModel.ObserveBufferEmpty` of its old state |
| PlayerLayer.PlayerLayerView.ObserveLikelyToKeepUp | Player/PlayerLayerView.swift:483-489 | the object becomes `PlayerModel.ObserveLikelyToKeepUp` of its old state |
| PlayerLayer.PlayerLayerView.ObserveValue | Player/PlayerLayerView.swift:447-499 | the object becomes `PlayerModel.ObserveValue` of its old state for the observed key |
| PlayerLayer.PlayerLayerView.PlayItemEvent | Player/PlayerLayerView.swift:218-224 | the object, including the shared bitrate, becomes `PlayerModel.PlayItemEvent` of its old state |
| PlayerLayer.PlayerLayerView.HandleCall | Player/PlayerLayerView.swift:251-336 | a caller's call moves the object as `PlayerModel.Step` does |
| PlayerLayer.PlayerLayerView.HandleEngine | Player/PlayerLayerView.swift:429-499 | an engine notification moves the object as `PlayerModel.Step` does |
| PlayerLayer.PlayerLayerView.HandleQueued | Player/PlayerLayerView.swift:25-28 | a queued task moves the object as `PlayerModel.Step` does; an empty queue is no task |
| PlayerLayer.PlayerLayerView.Handle | Player/PlayerLayerView.swift:522-547 | every event moves the object as `PlayerModel.Step` does and keeps at most one buffering check queued, exactly while `isBuffering` is set, with an item only while there is a player |

## Left out

- Layout and geometry are not modelled. This covers `layoutSubviews`, the aspect-ratio frames and `videoGravity`, which are UI and floating-point geometry.
- Constructing `AVPlayer` and `AVPlayerLayer`, and registering and removing KVO and NotificationCenter observers, are not modelled. This covers `configPlayer`, `onPlayerItemChange`, `playURL`, `playAsset` and `replaceCurrentItem(with: nil)`, all foreign-framework plumbing. `ConfigureItem` keeps only the flags these leave behind: an item, a player and `playDidEnd` cleared.
- `availableDuration` and the `CMTime` conversions are not modelled; they are floating-point media-time arithmetic. The engine record supplies the current time, the duration, the loaded range and "current time reached the duration" as given values.
- PlayerModel.PlayItemEvent: the division by 1000 is exact real division, not rounded `Double` arithmetic. The access-log lookup becomes an optional bitrate supplied by the environment.
- PlayerModel.Trunc: the trap of `Int64(seconds)` on a value outside the `Int64` range is not modelled.
- The engine record is not updated by the view's own commands within one handler, except for the non-zero rate after `player.play()`. After `player.pause()` or `player.seek` a handler reads nothing more from the engine, so the moment the engine takes the command does not matter. The next handler reads whatever record the environment supplies.
- Delays are not modelled. The 0.5 s timer interval and the 1 s retry delay of `asyncAfter` become queues that the environment runs one entry at a time, in any interleaving with other events.
- `weak self` captures are not modelled. A released timer's queued firings do nothing (`Ticking.Released`). The view itself is never released, so a queued retry check or seek completion always finds it.
- The tags of `Guard.lock(String)` (a `hashValue`) and of the generic overload (an `unsafeBitCast` of the array) are not modelled. The tag is modelled as one constant integer per track-action list. In Swift it is the array's storage address, which can change when `process` reassigns the list; the guard only needs the tag to be the same during one `process` call.
- The delegate is always present. Swift's `delegate?` calls do nothing without a delegate; the log records each notification regardless.
- Callbacks are identifiers, so a callback that calls back into the player is not modelled. Nor is one that processes the track actions again while the guard is held. That re-entry is what the guard is for: `ProcessList` states the held-tag case, but no modelled caller reaches it.
- TrackActions.ProcessAction: `when + precision` is exact real addition, not rounded `Double` addition.
- TrackActions.ProcessAction: an infinite processed time is not modelled. A time is either NaN or a finite number.
- TrackActions.ProcessAction: `when` and `precision` are finite numbers, not NaN or infinite. `precision` is non-negative because Swift's closed range traps on a negative width; a negative width is excluded by the type `Precision`, not modelled as a crash.
- The Swift `player` and `player.currentItem` are treated as one item: `hasItem` stands for both `playerItem` and the player's current item, which the library always sets together.
- `onTimeSliderBegan` is not modelled. It pauses the timer when the current item is ready, and nothing in the library calls it.
- `prepareToDeinit`, `seekTime`, `repeatToPlay`, `isFullScreen`, `isLocked`, `isVolume`, `isLocalVideo` and `sliderLastValue` are not modelled. They are unused flags or UI hooks with no effect on the modelled behaviour; `prepareToDeinit` is `resetPlayer`.
- Player/PlayerViewController.swift and Player/ViewController.swift are not part of this model. They are the view hierarchy and its presentation.
