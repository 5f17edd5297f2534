/**
 * The session logic of the player component (src/components/Player/index.tsx):
 * which episode is current, when each transport button is enabled, what happens
 * when an episode ends, and the cached progress the slider sets.
 */
module Player {
  import opened Wrappers
  import opened PlayerContext

  /** The episode at the current index, or none when the index points outside the queue. */
  function CurrentEpisode(s: Session): (r: Option<Episode>)
    ensures r.Some? <==> s.IndexInRange()
    ensures r.Some? ==> r.value == s.episodeList[s.currentEpisodeIndex] && r.value in s.episodeList
    ensures |s.episodeList| == 0 ==> r.None?
  {
    if 0 <= s.currentEpisodeIndex < |s.episodeList| then Some(s.episodeList[s.currentEpisodeIndex]) else None
  }

  /** The shuffle button: off without an episode or with a single-episode queue. */
  predicate ShuffleButtonDisabled(s: Session) {
    CurrentEpisode(s).None? || |s.episodeList| == 1
  }

  /** The previous button: off without an episode or without a previous one. */
  predicate PreviousButtonDisabled(s: Session) {
    CurrentEpisode(s).None? || !s.HasPrevious()
  }

  /** The play/pause button: off without an episode. */
  predicate PlayButtonDisabled(s: Session) {
    CurrentEpisode(s).None?
  }

  /** The next button: off without an episode or without a next one. */
  predicate NextButtonDisabled(s: Session) {
    CurrentEpisode(s).None? || !s.HasNext()
  }

  /** The loop button: off without an episode. */
  predicate LoopButtonDisabled(s: Session) {
    CurrentEpisode(s).None?
  }

  /**
   * What the enabled buttons mean in terms of the controller: each one is enabled
   * exactly when the index is in range and its own guard holds.
   */
  lemma ButtonGuards(s: Session)
    ensures !PlayButtonDisabled(s) <==> s.IndexInRange()
    ensures !LoopButtonDisabled(s) <==> s.IndexInRange()
    ensures !NextButtonDisabled(s) <==> s.IndexInRange() && s.HasNext()
    ensures !PreviousButtonDisabled(s) <==> s.IndexInRange() && s.HasPrevious()
    ensures !ShuffleButtonDisabled(s) <==> s.IndexInRange() && |s.episodeList| >= 2
    ensures !NextButtonDisabled(s) && !s.isShuffling ==> s.currentEpisodeIndex < |s.episodeList| - 1
  {
  }

  /** With an empty queue every transport button is disabled. */
  lemma EmptyQueueDisablesButtons(s: Session)
    requires s.episodeList == []
    ensures ShuffleButtonDisabled(s) && PreviousButtonDisabled(s) && PlayButtonDisabled(s)
    ensures NextButtonDisabled(s) && LoopButtonDisabled(s)
  {
  }

  /**
   * Pressing an enabled next or previous button lands on an episode again, so
   * the buttons never lead from a shown episode to the empty player.
   */
  lemma EnabledNavigationKeepsEpisode(s: Session, roll: int)
    requires s.isShuffling && |s.episodeList| > 0 ==> 0 <= roll < |s.episodeList|
    ensures !NextButtonDisabled(s) ==> CurrentEpisode(s.PlayNext(roll)).Some?
    ensures !PreviousButtonDisabled(s) ==>
      CurrentEpisode(s.PlayPrevious()) == Some(s.episodeList[s.currentEpisodeIndex - 1])
  {
  }

  /**
   * The handler for the audio element's end of playback: advance when there is
   * a next episode, otherwise clear the queue.
   */
  function EpisodeEnded(s: Session, roll: int): (r: Session)
    requires s.isShuffling && |s.episodeList| > 0 ==> 0 <= roll < |s.episodeList|
    ensures s.HasNext() ==> r == s.PlayNext(roll)
    ensures !s.HasNext() ==> r == s.ClearPlayingState()
    ensures r.SameFlags(s)
  {
    if s.HasNext() then s.PlayNext(roll) else s.ClearPlayingState()
  }

  /**
   * Without shuffling, the end of the last episode of the queue empties the
   * player; the end of any earlier one moves to the following episode.
   */
  lemma EpisodeEndedWithoutShuffle(s: Session, roll: int)
    requires !s.isShuffling && s.IndexInRange()
    ensures s.currentEpisodeIndex == |s.episodeList| - 1 ==>
      EpisodeEnded(s, roll).episodeList == [] && CurrentEpisode(EpisodeEnded(s, roll)).None?
    ensures s.currentEpisodeIndex < |s.episodeList| - 1 ==>
      CurrentEpisode(EpisodeEnded(s, roll)) == Some(s.episodeList[s.currentEpisodeIndex + 1])
    ensures EpisodeEnded(s, roll).isPlaying == s.isPlaying
  {
  }

  /** With shuffling on, an ending never empties the queue: some episode is always picked. */
  lemma EpisodeEndedWithShuffle(s: Session, roll: int)
    requires s.isShuffling && |s.episodeList| > 0 && 0 <= roll < |s.episodeList|
    ensures EpisodeEnded(s, roll).episodeList == s.episodeList
    ensures CurrentEpisode(EpisodeEnded(s, roll)) == Some(s.episodeList[roll])
  {
  }

  /**
   * With shuffling on, the end of a lone episode re-picks that same episode:
   * the session, and so the episode shown, is exactly as before the ending,
   * whether it arrives while playing or after the device reported a pause.
   */
  lemma ShuffleRepeatsLoneEpisode(s: Session, roll: int)
    requires s.isShuffling && |s.episodeList| == 1 && s.currentEpisodeIndex == 0 && roll == 0
    ensures EpisodeEnded(s, roll) == s
    ensures CurrentEpisode(EpisodeEnded(s, roll)) == Some(s.episodeList[0])
    ensures EpisodeEnded(s.SetPlayingState(false), roll) == s.SetPlayingState(false)
  {
  }

  /**
   * The player component: the controller it reads and drives, and the `progress`
   * cell that caches the playback position in seconds.
   */
  class PlayerComponent {
    const context: PlayerContextProvider
    var progress: int

    constructor (context: PlayerContextProvider)
      ensures this.context == context && progress == 0
    {
      this.context := context;
      progress := 0;
    }

    /** The slider moved: cache its position; the controller is not touched. */
    method HandleSlide(amount: int)
      modifies this`progress
      ensures progress == amount
      ensures context.State() == old(context.State())
    {
      progress := amount;
    }

    /** The audio element reported the end of the current episode. */
    method HandleEpisodeEnded(roll: int)
      requires context.isShuffling && |context.episodeList| > 0 ==> 0 <= roll < |context.episodeList|
      modifies context
      ensures context.State() == EpisodeEnded(old(context.State()), roll)
      ensures progress == old(progress)
    {
      if context.State().HasNext() {
        context.PlayNext(roll);
      } else {
        context.ClearPlayingState();
      }
    }
  }
}
