/**
 * A playback session as the sequence of handler calls the UI and the audio
 * element make on the controller, each one applied atomically in order.
 */
module Playback {
  import opened PlayerContext
  import Player

  /** One call into the controller, from a button, a page or the audio element. */
  datatype Event =
    | Play(episode: Episode)
    | PlayList(list: seq<Episode>, index: int)
    | TogglePause
    | ToggleLoop
    | ToggleShuffle
    | SetPlayingState(state: bool)
    | ClearPlayingState
    | PlayNext(roll: int)
    | PlayPrevious
    | EpisodeEnded(roll: int)

  /** The random draw of a shuffling step, if the event makes one, is an index of the queue. */
  predicate RollInRange(s: Session, e: Event) {
    (e.PlayNext? || e.EpisodeEnded?) && s.isShuffling && |s.episodeList| > 0 ==>
      0 <= e.roll < |s.episodeList|
  }

  function Apply(s: Session, e: Event): (r: Session)
    requires RollInRange(s, e)
  {
    match e
    case Play(episode) => s.Play(episode)
    case PlayList(list, index) => s.PlayList(list, index)
    case TogglePause => s.TogglePause()
    case ToggleLoop => s.ToggleLoop()
    case ToggleShuffle => s.ToggleShuffle()
    case SetPlayingState(state) => s.SetPlayingState(state)
    case ClearPlayingState => s.ClearPlayingState()
    case PlayNext(roll) => s.PlayNext(roll)
    case PlayPrevious => s.PlayPrevious()
    case EpisodeEnded(roll) => Player.EpisodeEnded(s, roll)
  }

  /** Every random draw along the run is an index of the queue at that moment. */
  predicate Feasible(s: Session, events: seq<Event>)
    decreases |events|
  {
    events == [] || (RollInRange(s, events[0]) && Feasible(Apply(s, events[0]), events[1..]))
  }

  /** The session after the events, in order. */
  function Run(s: Session, events: seq<Event>): (r: Session)
    requires Feasible(s, events)
    decreases |events|
  {
    if events == [] then s else Run(Apply(s, events[0]), events[1..])
  }

  /**
   * The index is meaningful: it points at an episode, or the queue is empty and
   * the index is 0, as after a clear.
   */
  predicate Settled(s: Session) {
    s.IndexInRange() || (s.episodeList == [] && s.currentEpisodeIndex == 0)
  }

  /** In a settled session the player shows an episode exactly when the queue is non-empty. */
  lemma SettledShowsEpisode(s: Session)
    requires Settled(s)
    ensures Player.CurrentEpisode(s).Some? <==> |s.episodeList| > 0
    ensures s.currentEpisodeIndex >= 0
  {
  }

  /** A list is loaded at an index that fits it (0 for an empty list). */
  predicate WellChosen(e: Event) {
    e.PlayList? ==> 0 <= e.index < |e.list| || (e.list == [] && e.index == 0)
  }

  /** One handler keeps a session settled, given a sensible index for a loaded list. */
  lemma ApplyKeepsSettled(s: Session, e: Event)
    requires Settled(s) && RollInRange(s, e) && WellChosen(e)
    ensures Settled(Apply(s, e))
  {
  }

  /**
   * Starting settled, a whole session keeps the index meaningful: it never goes
   * negative and never points past the queue, whatever buttons are pressed and
   * whatever the shuffle draws, as long as lists are loaded at indices that fit.
   */
  lemma {:induction false} RunKeepsSettled(s: Session, events: seq<Event>)
    requires Settled(s) && Feasible(s, events)
    requires forall i :: 0 <= i < |events| ==> WellChosen(events[i])
    ensures Settled(Run(s, events))
    decreases |events|
  {
    if events != [] {
      ApplyKeepsSettled(s, events[0]);
      RunKeepsSettled(Apply(s, events[0]), events[1..]);
    }
  }

  /**
   * The looping and shuffling flags are sticky: only their own toggle changes
   * them, whatever else happens, clears and queue replacements included.
   */
  lemma {:induction false} StickyFlags(s: Session, events: seq<Event>)
    requires Feasible(s, events)
    ensures (forall i :: 0 <= i < |events| ==> !events[i].ToggleLoop?) ==>
      Run(s, events).isLooping == s.isLooping
    ensures (forall i :: 0 <= i < |events| ==> !events[i].ToggleShuffle?) ==>
      Run(s, events).isShuffling == s.isShuffling
    decreases |events|
  {
    if events != [] {
      StickyFlags(Apply(s, events[0]), events[1..]);
      if forall i :: 0 <= i < |events| ==> !events[i].ToggleLoop? {
        assert forall i :: 0 <= i < |events[1..]| ==> !events[1..][i].ToggleLoop? by {
          forall i | 0 <= i < |events[1..]| ensures !events[1..][i].ToggleLoop? {
            assert events[1..][i] == events[i + 1];
          }
        }
      }
      if forall i :: 0 <= i < |events| ==> !events[i].ToggleShuffle? {
        assert forall i :: 0 <= i < |events[1..]| ==> !events[1..][i].ToggleShuffle? by {
          forall i | 0 <= i < |events[1..]| ensures !events[1..][i].ToggleShuffle? {
            assert events[1..][i] == events[i + 1];
          }
        }
      }
    }
  }

  /** `k` successive ends of playback. Without shuffling the draw is never used. */
  function Endings(k: nat): (events: seq<Event>)
    ensures |events| == k && forall i :: 0 <= i < k ==> events[i] == EpisodeEnded(0)
  {
    seq(k, _ => EpisodeEnded(0))
  }

  /**
   * Without shuffling, a queue plays through in order: after `k` endings from
   * index `i` the player is at episode `i + k`, and the ending of the last
   * episode empties the queue, leaving every flag as it was.
   */
  lemma {:induction false} PlaysThrough(s: Session, k: nat)
    requires !s.isShuffling && s.IndexInRange()
    requires k <= |s.episodeList| - s.currentEpisodeIndex
    ensures Feasible(s, Endings(k))
    ensures k < |s.episodeList| - s.currentEpisodeIndex ==>
      Run(s, Endings(k)) == s.(currentEpisodeIndex := s.currentEpisodeIndex + k)
    ensures k == |s.episodeList| - s.currentEpisodeIndex ==>
      Run(s, Endings(k)) == s.ClearPlayingState() &&
      Player.CurrentEpisode(Run(s, Endings(k))).None?
    decreases k
  {
    if k > 0 {
      var t := Apply(s, EpisodeEnded(0));
      assert Endings(k)[1..] == Endings(k - 1);
      if s.currentEpisodeIndex + 1 < |s.episodeList| {
        assert t == s.(currentEpisodeIndex := s.currentEpisodeIndex + 1);
        PlaysThrough(t, k - 1);
      } else {
        assert t == s.ClearPlayingState();
        assert k == 1;
        assert Endings(0) == [];
      }
    }
  }
}
