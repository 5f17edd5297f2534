# Podcast player session controller, in Dafny

This project models the playback session of a podcast player. The player
context provider (`src/context/PlayerContext.tsx`) holds the queue of episodes
(`episodeList`), a pointer into it (`currentEpisodeIndex`) and three transport
flags (`isPlaying`, `isLooping`, `isShuffling`). It hands the UI small
transitions over that state: play one episode, load a list, toggle pause, loop
and shuffle, report the playing state, clear, next and previous. It also
derives two guards, `hasNext` and `hasPrevious`. The player component
(`src/components/Player/index.tsx`) derives the current episode and enables or
disables the transport buttons from that state. It handles the end of an
episode (advance if there is a next one, else clear) and caches the slider
position in `progress`.

Layout:

- `wrappers.dfy`: module `Wrappers`, the `Option` type used for "no current episode".
- `player_context.dfy`: module `PlayerContext`.
  - `Session` is the value of the five state cells. Each transition is one of its member functions, with a contract saying what changes and what does not.
  - `PlayerContextProvider` is a class with the five cells as fields. Its methods update them in place, and each ensures `State() == old(State()).<transition>`.
  - Lemmas relate transitions to each other: involutions, inverses, shuffle behaviour.
- `player.dfy`: module `Player`.
  - The current-episode lookup, the five button guards and the end-of-episode transition.
  - `PlayerComponent` is a class holding the `progress` cell and the two handlers.
- `playback.dfy`: module `Playback`. A session is a sequence of handler calls applied in order. Induction lemmas cover whole sessions:
  - the index stays meaningful;
  - the loop and shuffle flags are sticky;
  - a queue plays through to the empty player.

`Math.random()` is replaced by a caller-supplied draw `roll`. When shuffling
with a non-empty queue the draw must be an index of the queue. When the queue
is empty, `Math.floor(Math.random() * 0)` is 0, and the model picks 0 whatever
the draw.

Behaviour kept as the code has it, although an idealised controller would differ:

- `playList` sets `isPlaying` even for an empty list and never range-checks the index. There is no clamping policy, so `currentEpisodeIndex` is an unbounded `int`.
- `clearPlayingState` keeps `isPlaying` as it was.
- `hasNext` is true whenever shuffling, even for an empty queue. After `play(e)` with shuffling on, `hasNext` is therefore true, not false.
- Previous and next without shuffling are no-ops at the ends of the queue. They are not clamped.

## Model

| member | source | states |
|---|---|---|
| PlayerContext.ShuffledIndex | src/context/PlayerContext.tsx:82 | the shuffle pick lies in `[0, length)` for a non-empty queue and is 0 for an empty one |
| PlayerContext.Session.HasPrevious | src/context/PlayerContext.tsx:77 | holds iff the index is > 0, so the index before it is never negative, and it is a valid index whenever the current one is |
| PlayerContext.Session.HasNext | src/context/PlayerContext.tsx:78 | holds iff shuffling or `index + 1 < |episodeList|`: always while shuffling, even for an empty queue; otherwise, for an index of at least -1, exactly when the following index is in the queue (an index below -1, which an unchecked `playList` can set, makes it hold too) |
| PlayerContext.Session.Play | src/context/PlayerContext.tsx:44-48 | the queue becomes exactly `[episode]` at index 0 and playing. Loop and shuffle are kept. There is no previous episode, and there is a next one iff shuffling |
| PlayerContext.Session.TogglePause | src/context/PlayerContext.tsx:50-52 | only `isPlaying` flips. Queue, index, the other flags and both guards are unchanged |
| PlayerContext.Session.ToggleLoop | src/context/PlayerContext.tsx:54-56 | only `isLooping` flips. Queue, index, the other flags and both guards are unchanged |
| PlayerContext.Session.ToggleShuffle | src/context/PlayerContext.tsx:58-60 | only `isShuffling` flips. The queue is not reordered, the index is kept, and once shuffling there is always a next episode |
| PlayerContext.Session.PlayList | src/context/PlayerContext.tsx:62-66 | the queue is replaced by `list` with the index set to `index` unchecked. Playing is set even for an empty list. The index points at an episode iff `0 <= index < |list|` |
| PlayerContext.Session.SetPlayingState | src/context/PlayerContext.tsx:68-70 | `isPlaying` becomes the reported state and nothing else changes |
| PlayerContext.Session.ClearPlayingState | src/context/PlayerContext.tsx:72-75 | the queue is emptied and the index reset to 0. All three flags are kept, `isPlaying` included. No previous episode, and a next one iff shuffling |
| PlayerContext.Session.PlayNext | src/context/PlayerContext.tsx:80-88 | shuffling picks an index in range (0 for an empty queue). Otherwise the index goes up by exactly 1 when `hasNext`, and without `hasNext` nothing changes. Queue and flags are kept, and a valid index stays valid |
| PlayerContext.Session.PlayPrevious | src/context/PlayerContext.tsx:90-95 | the index goes down by exactly 1 iff it is > 0, and otherwise nothing changes. A non-negative index stays non-negative and a valid one stays valid. Queue and flags are kept |
| PlayerContext.Initial | src/context/PlayerContext.tsx:38-42 | the provider starts with an empty queue, no current episode, every flag off and neither guard holding |
| PlayerContext.TogglesAreInvolutions | src/context/PlayerContext.tsx:50-60 | each toggle applied twice restores the session, and toggles of different flags commute |
| PlayerContext.SetPlayingStateOpposite | src/context/PlayerContext.tsx:68-70 | reporting the opposite playing state equals toggling pause, and reporting the same state changes nothing |
| PlayerContext.PreviousUndoesNext | src/context/PlayerContext.tsx:80-95 | without shuffling and with a non-negative index, previous undoes a step forward; and when the index is also in range, next undoes a step back |
| PlayerContext.ShufflingAlwaysHasNext | src/context/PlayerContext.tsx:78-83 | while shuffling with a non-empty queue, `hasNext` holds at every index and still holds after next, which lands in range |
| PlayerContext.ShuffleMayRepeat | src/context/PlayerContext.tsx:81-83 | a shuffle can re-pick the current episode and leave the session unchanged |
| PlayerContext.PlayerContextProvider.constructor | src/context/PlayerContext.tsx:38-42 | the five cells start as an empty queue, index 0 and all flags false |
| PlayerContext.PlayerContextProvider.Play | src/context/PlayerContext.tsx:44-48 | the fields are updated in place to exactly `Session.Play` of the old state |
| PlayerContext.PlayerContextProvider.TogglePause | src/context/PlayerContext.tsx:50-52 | in-place update equal to `Session.TogglePause` of the old state |
| PlayerContext.PlayerContextProvider.ToggleLoop | src/context/PlayerContext.tsx:54-56 | in-place update equal to `Session.ToggleLoop` of the old state |
| PlayerContext.PlayerContextProvider.ToggleShuffle | src/context/PlayerContext.tsx:58-60 | in-place update equal to `Session.ToggleShuffle` of the old state |
| PlayerContext.PlayerContextProvider.PlayList | src/context/PlayerContext.tsx:62-66 | in-place update equal to `Session.PlayList` of the old state |
| PlayerContext.PlayerContextProvider.SetPlayingState | src/context/PlayerContext.tsx:68-70 | in-place update equal to `Session.SetPlayingState` of the old state |
| PlayerContext.PlayerContextProvider.ClearPlayingState | src/context/PlayerContext.tsx:72-75 | in-place update equal to `Session.ClearPlayingState` of the old state |
| PlayerContext.PlayerContextProvider.PlayNext | src/context/PlayerContext.tsx:80-88 | in-place update equal to `Session.PlayNext` of the old state for the supplied draw |
| PlayerContext.PlayerContextProvider.PlayPrevious | src/context/PlayerContext.tsx:90-95 | in-place update equal to `Session.PlayPrevious` of the old state |
| Player.CurrentEpisode | src/components/Player/index.tsx:29 | the current episode exists iff the index is in range, and then it is `episodeList[currentEpisodeIndex]`. There is none for an empty queue |
| Player.ButtonGuards | src/components/Player/index.tsx:113-142 | for `PlayButtonDisabled`, `LoopButtonDisabled`, `NextButtonDisabled`, `PreviousButtonDisabled` and `ShuffleButtonDisabled`: play/pause and loop are enabled iff there is a current episode. Next needs `hasNext` too and previous needs `hasPrevious` too. Shuffle needs a queue of at least two |
| Player.EmptyQueueDisablesButtons | src/components/Player/index.tsx:113-142 | with an empty queue all five transport buttons are disabled |
| Player.EnabledNavigationKeepsEpisode | src/components/Player/index.tsx:120-135 | pressing an enabled next or previous button lands on an episode. Previous lands on the one before the current episode |
| Player.EpisodeEnded | src/components/Player/index.tsx:52-58 | the end of an episode acts exactly as next when `hasNext` holds and exactly as clear otherwise. All flags, `isPlaying` included, are kept |
| Player.EpisodeEndedWithoutShuffle | src/components/Player/index.tsx:52-58 | without shuffling, ending the last episode leaves an empty queue and no current episode, and ending an earlier one shows the following episode |
| Player.EpisodeEndedWithShuffle | src/components/Player/index.tsx:52-58 | while shuffling, an ending keeps the queue and shows the drawn episode |
| Player.ShuffleRepeatsLoneEpisode | src/components/Player/index.tsx:52-58 | with shuffling on, a one-episode queue at index 0 and the draw 0 (the only one possible), an ending re-picks that episode and leaves the session exactly as it was, playing or paused |
| Player.PlayerComponent.constructor | src/components/Player/index.tsx:10-12 | the component starts with progress 0 over the given controller |
| Player.PlayerComponent.HandleSlide | src/components/Player/index.tsx:47-50 | the cached progress becomes exactly `amount` and the controller state is unchanged |
| Player.PlayerComponent.HandleEpisodeEnded | src/components/Player/index.tsx:52-58 | the controller is updated in place to `EpisodeEnded` of its old state, and progress is untouched |
| Playback.SettledShowsEpisode | src/components/Player/index.tsx:29 | when the index is in range, or 0 with an empty queue, an episode is shown iff the queue is non-empty |
| Playback.ApplyKeepsSettled | src/context/PlayerContext.tsx:44-95 | every handler keeps a meaningful index, given lists loaded at indices that fit them |
| Playback.RunKeepsSettled | src/context/PlayerContext.tsx:44-95 | over any sequence of handler calls and shuffle draws, given lists loaded at indices that fit them, a meaningful index stays meaningful: never negative, never past the queue |
| Playback.StickyFlags | src/context/PlayerContext.tsx:44-95 | over any sequence of handler calls, loop changes only by its own toggle and so does shuffle |
| Playback.PlaysThrough | src/components/Player/index.tsx:52-58 | without shuffling, `k` endings from index `i` show episode `i + k`. Ending the last episode empties the queue with all flags kept |

## Left out

- JSX rendering, images, the page head, the slider widget and the styles: presentation only.
- The `<audio>` element and the effect that calls its `play()`/`pause()`: this is the playback device. `isPlaying` is the state the controller commands it to take, and `SetPlayingState` models what it reports back.
- `isLooping` reaches only the audio element (`loop={isLooping}`), and the model lets an ending happen in any state. The device never reports an ending while looping. It reports a pause (`setPlayingState(false)`) just before each ending. It reports endings only while an episode is shown, because the element exists only then. `Playback.Run` and `Playback.PlaysThrough` therefore also cover endings the program never sees: with loop on, a queue never plays through to the empty player.
- With shuffling on and a one-episode queue at index 0, an ending re-picks the same episode, also in the paused state the device reports just before the ending (`Player.ShuffleRepeatsLoneEpisode`). The element's `src` is then unchanged, so the audio does not restart. That is device behaviour and is not modelled.
- Player.PlayerComponent.HandleSlide: setting the audio element's `currentTime` is a call into the device and is not modelled. Only the cached `progress` is.
- The `timeupdate` listener and `Math.floor(currentTime)`: event plumbing over a floating-point media clock.
- `Math.random()`: replaced by a supplied draw, as described above. Nothing is said about its distribution.
- `convertDurationToTimeString` is not part of this model: it formats time for display.
- React context plumbing and `setState` batching. Each handler is one atomic update applied in order.
- PlayerContext.Session.PlayList: `index` is a JavaScript number and could be fractional or `NaN`. The model takes an integer.
- Player.PlayerComponent.HandleSlide: `amount` is modelled as an integer number of seconds, as the slider reports them.
- The unused local `nextEpisodeIndex` in `playPrevious`.
