/**
 * The playback-session controller of the player context provider
 * (src/context/PlayerContext.tsx): a queue of episodes, a pointer into it and
 * three transport flags, with the transitions the provider hands to the UI.
 *
 * `Session` is the value of the five state cells at one moment, and each of its
 * member functions is the new value after one handler runs. The class
 * `PlayerContextProvider` holds the same five cells as mutable fields and
 * updates them in place, each method proved to produce exactly the session
 * that the corresponding function describes.
 */
module PlayerContext {

  /** An episode as the provider receives it. The controller never inspects or changes one. */
  datatype Episode = Episode(
    title: string,
    thumbnail: string,
    members: string,
    publishedAt: string,
    duration: int,
    url: string)

  /**
   * The index `Math.floor(Math.random() * length)` picks, where the caller supplies
   * the draw as `roll`. With an empty queue the product is 0, so the pick is 0 whatever
   * the draw; otherwise the draw is any index into the queue.
   */
  function ShuffledIndex(length: nat, roll: int): (i: int)
    requires length > 0 ==> 0 <= roll < length
    ensures length == 0 ==> i == 0
    ensures length > 0 ==> 0 <= i < length && i == roll
  {
    if length == 0 then 0 else roll
  }

  /** The five state cells of the provider, with their derived guards and transitions. */
  datatype Session = Session(
    episodeList: seq<Episode>,
    currentEpisodeIndex: int,
    isPlaying: bool,
    isLooping: bool,
    isShuffling: bool)
  {
    /** There is an episode before the current one. */
    predicate HasPrevious()
      ensures HasPrevious() ==> currentEpisodeIndex - 1 >= 0
      ensures HasPrevious() && IndexInRange() ==> 0 <= currentEpisodeIndex - 1 < |episodeList|
      ensures currentEpisodeIndex == 0 ==> !HasPrevious()
    {
      currentEpisodeIndex > 0
    }

    /** There is a following episode: always when shuffling, even for an empty queue. */
    predicate HasNext()
      ensures isShuffling ==> HasNext()
      ensures !isShuffling && currentEpisodeIndex >= -1 ==>
        (HasNext() <==> 0 <= currentEpisodeIndex + 1 < |episodeList|)
      ensures !isShuffling && currentEpisodeIndex >= 0 && |episodeList| == 0 ==> !HasNext()
    {
      isShuffling || currentEpisodeIndex + 1 < |episodeList|
    }

    /** The index points at a real episode of the queue. */
    predicate IndexInRange() {
      0 <= currentEpisodeIndex < |episodeList|
    }

    /** The three flags are those of `other`. */
    predicate SameFlags(other: Session) {
      isPlaying == other.isPlaying && isLooping == other.isLooping && isShuffling == other.isShuffling
    }

    /** Start playing one episode on its own. */
    function Play(episode: Episode): (r: Session)
      ensures r.episodeList == [episode] && r.currentEpisodeIndex == 0 && r.isPlaying
      ensures r.isLooping == isLooping && r.isShuffling == isShuffling
      ensures r.IndexInRange() && r.episodeList[r.currentEpisodeIndex] == episode
      ensures !r.HasPrevious() && (r.HasNext() <==> isShuffling)
    {
      Session([episode], 0, true, isLooping, isShuffling)
    }

    /** Flip the playing flag; nothing else changes. */
    function TogglePause(): (r: Session)
      ensures r.isPlaying != isPlaying
      ensures r.isLooping == isLooping && r.isShuffling == isShuffling
      ensures r.episodeList == episodeList && r.currentEpisodeIndex == currentEpisodeIndex
      ensures r.HasNext() == HasNext() && r.HasPrevious() == HasPrevious()
    {
      this.(isPlaying := !isPlaying)
    }

    /** Flip the looping flag; nothing else changes. */
    function ToggleLoop(): (r: Session)
      ensures r.isLooping != isLooping
      ensures r.isPlaying == isPlaying && r.isShuffling == isShuffling
      ensures r.episodeList == episodeList && r.currentEpisodeIndex == currentEpisodeIndex
      ensures r.HasNext() == HasNext() && r.HasPrevious() == HasPrevious()
    {
      this.(isLooping := !isLooping)
    }

    /**
     * Flip the shuffling flag. The queue is not reordered; only what `HasNext`
     * and `PlayNext` do afterwards depends on it.
     */
    function ToggleShuffle(): (r: Session)
      ensures r.isShuffling != isShuffling
      ensures r.isPlaying == isPlaying && r.isLooping == isLooping
      ensures r.episodeList == episodeList && r.currentEpisodeIndex == currentEpisodeIndex
      ensures r.HasPrevious() == HasPrevious()
      ensures r.isShuffling ==> r.HasNext()
    {
      this.(isShuffling := !isShuffling)
    }

    /**
     * Replace the queue and point at `index`, which is not range-checked, and
     * start playing even when the new queue is empty.
     */
    function PlayList(list: seq<Episode>, index: int): (r: Session)
      ensures r.episodeList == list && r.currentEpisodeIndex == index && r.isPlaying
      ensures r.isLooping == isLooping && r.isShuffling == isShuffling
      ensures r.IndexInRange() <==> 0 <= index < |list|
    {
      Session(list, index, true, isLooping, isShuffling)
    }

    /** Record the playing state the audio device reports. */
    function SetPlayingState(state: bool): (r: Session)
      ensures r.isPlaying == state
      ensures r.isLooping == isLooping && r.isShuffling == isShuffling
      ensures r.episodeList == episodeList && r.currentEpisodeIndex == currentEpisodeIndex
    {
      this.(isPlaying := state)
    }

    /** Empty the queue and reset the index; all three flags, `isPlaying` included, are kept. */
    function ClearPlayingState(): (r: Session)
      ensures r.episodeList == [] && r.currentEpisodeIndex == 0
      ensures r.SameFlags(this)
      ensures !r.IndexInRange() && !r.HasPrevious()
      ensures r.HasNext() <==> isShuffling
    {
      Session([], 0, isPlaying, isLooping, isShuffling)
    }

    /**
     * Move to the following episode: a random pick (`roll`) when shuffling,
     * one step forward when there is a next episode, otherwise nothing.
     */
    function PlayNext(roll: int): (r: Session)
      requires isShuffling && |episodeList| > 0 ==> 0 <= roll < |episodeList|
      ensures r.episodeList == episodeList && r.SameFlags(this)
      ensures isShuffling && |episodeList| == 0 ==> r.currentEpisodeIndex == 0
      ensures isShuffling && |episodeList| > 0 ==> r.IndexInRange() && r.currentEpisodeIndex == roll
      ensures !isShuffling && HasNext() ==> r.currentEpisodeIndex == currentEpisodeIndex + 1
      ensures !HasNext() ==> r == this
      ensures !isShuffling && currentEpisodeIndex >= 0 ==> r.currentEpisodeIndex >= currentEpisodeIndex
      ensures !isShuffling && IndexInRange() ==> r.IndexInRange()
    {
      if isShuffling then
        this.(currentEpisodeIndex := ShuffledIndex(|episodeList|, roll))
      else if HasNext() then
        this.(currentEpisodeIndex := currentEpisodeIndex + 1)
      else
        this
    }

    /** Move one episode back when there is one before the current one, otherwise nothing. */
    function PlayPrevious(): (r: Session)
      ensures r.episodeList == episodeList && r.SameFlags(this)
      ensures HasPrevious() ==> r.currentEpisodeIndex == currentEpisodeIndex - 1
      ensures !HasPrevious() ==> r == this
      ensures currentEpisodeIndex >= 0 ==> r.currentEpisodeIndex >= 0
      ensures IndexInRange() ==> r.IndexInRange()
    {
      if HasPrevious() then this.(currentEpisodeIndex := currentEpisodeIndex - 1) else this
    }
  }

  /** The state the provider starts with: an empty queue at index 0, every flag off. */
  function Initial(): (r: Session)
    ensures r.episodeList == [] && !r.IndexInRange()
    ensures !r.isPlaying && !r.isLooping && !r.isShuffling
    ensures !r.HasNext() && !r.HasPrevious()
  {
    Session([], 0, false, false, false)
  }

  /** Each flag toggle undone by itself, and toggles of different flags commute. */
  lemma TogglesAreInvolutions(s: Session)
    ensures s.TogglePause().TogglePause() == s
    ensures s.ToggleLoop().ToggleLoop() == s
    ensures s.ToggleShuffle().ToggleShuffle() == s
    ensures s.TogglePause().ToggleLoop() == s.ToggleLoop().TogglePause()
    ensures s.TogglePause().ToggleShuffle() == s.ToggleShuffle().TogglePause()
    ensures s.ToggleLoop().ToggleShuffle() == s.ToggleShuffle().ToggleLoop()
  {
  }

  /** Reporting the opposite playing state is the same as toggling pause. */
  lemma SetPlayingStateOpposite(s: Session)
    ensures s.SetPlayingState(!s.isPlaying) == s.TogglePause()
    ensures s.SetPlayingState(s.isPlaying) == s
  {
  }

  /** Going back undoes a linear step forward, and going forward undoes a step back. */
  lemma PreviousUndoesNext(s: Session, roll: int)
    requires !s.isShuffling && s.currentEpisodeIndex >= 0
    ensures s.HasNext() ==> s.PlayNext(roll).PlayPrevious() == s
    ensures s.IndexInRange() && s.HasPrevious() ==> s.PlayPrevious().PlayNext(roll) == s
  {
  }

  /** With shuffling on and a non-empty queue, there is always a next episode, at every index. */
  lemma ShufflingAlwaysHasNext(s: Session, roll: int)
    requires s.isShuffling && |s.episodeList| > 0 && 0 <= roll < |s.episodeList|
    ensures s.HasNext()
    ensures s.PlayNext(roll).HasNext() && s.PlayNext(roll).IndexInRange()
  {
  }

  /** A shuffle may pick the episode already playing: the pick need not move the index. */
  lemma ShuffleMayRepeat(s: Session)
    requires s.isShuffling && s.IndexInRange()
    ensures exists roll :: 0 <= roll < |s.episodeList| && s.PlayNext(roll) == s
  {
    assert s.PlayNext(s.currentEpisodeIndex) == s;
  }

  /**
   * The provider's five `useState` cells as fields of one object. Every handler
   * assigns some of them; `State` reads all five back as a `Session`.
   */
  class PlayerContextProvider {
    var episodeList: seq<Episode>
    var currentEpisodeIndex: int
    var isPlaying: bool
    var isLooping: bool
    var isShuffling: bool

    function State(): (r: Session)
      reads this
    {
      Session(episodeList, currentEpisodeIndex, isPlaying, isLooping, isShuffling)
    }

    constructor ()
      ensures State() == Initial()
    {
      episodeList := [];
      currentEpisodeIndex := 0;
      isPlaying := false;
      isLooping := false;
      isShuffling := false;
    }

    method Play(episode: Episode)
      modifies this
      ensures State() == old(State()).Play(episode)
    {
      episodeList := [episode];
      isPlaying := true;
      currentEpisodeIndex := 0;
    }

    method TogglePause()
      modifies this
      ensures State() == old(State()).TogglePause()
    {
      isPlaying := !isPlaying;
    }

    method ToggleLoop()
      modifies this
      ensures State() == old(State()).ToggleLoop()
    {
      isLooping := !isLooping;
    }

    method ToggleShuffle()
      modifies this
      ensures State() == old(State()).ToggleShuffle()
    {
      isShuffling := !isShuffling;
    }

    method PlayList(list: seq<Episode>, index: int)
      modifies this
      ensures State() == old(State()).PlayList(list, index)
    {
      episodeList := list;
      currentEpisodeIndex := index;
      isPlaying := true;
    }

    method SetPlayingState(state: bool)
      modifies this
      ensures State() == old(State()).SetPlayingState(state)
    {
      isPlaying := state;
    }

    method ClearPlayingState()
      modifies this
      ensures State() == old(State()).ClearPlayingState()
    {
      episodeList := [];
      currentEpisodeIndex := 0;
    }

    /** `roll` stands for the draw of `Math.random()`, see `ShuffledIndex`. */
    method PlayNext(roll: int)
      requires isShuffling && |episodeList| > 0 ==> 0 <= roll < |episodeList|
      modifies this
      ensures State() == old(State()).PlayNext(roll)
    {
      if isShuffling {
        currentEpisodeIndex := ShuffledIndex(|episodeList|, roll);
      } else if State().HasNext() {
        currentEpisodeIndex := currentEpisodeIndex + 1;
      }
    }

    method PlayPrevious()
      modifies this
      ensures State() == old(State()).PlayPrevious()
    {
      if State().HasPrevious() {
        currentEpisodeIndex := currentEpisodeIndex - 1;
      }
    }
  }
}
