/**
 * The floating audio button (client/src/components/audio-player.tsx): the isPlaying/isMuted
 * state, the element's muted flag that follows it, and the icon the button shows.
 */
module AudioPlayer {

  /** The component's two state flags. */
  datatype PlayerState = PlayerState(isPlaying: bool, isMuted: bool)

  const Initial := PlayerState(false, true)

  /** What the user or the element does. */
  datatype Event = ToggleAudio(playSucceeds: bool) | ToggleMute | Ended

  /**
   * toggleAudio: a playing track is paused; a stopped one starts and is unmuted when play()
   * resolves, and a rejected play() changes nothing.
   */
  function AfterToggleAudio(s: PlayerState, playSucceeds: bool): (t: PlayerState)
    ensures s.isPlaying ==> t == PlayerState(false, s.isMuted)
    ensures !s.isPlaying && playSucceeds ==> t == PlayerState(true, false)
    ensures !s.isPlaying && !playSucceeds ==> t == s
  {
    if s.isPlaying then s.(isPlaying := false)
    else if playSucceeds then PlayerState(true, false)
    else s
  }

  /** toggleMute flips the muted flag only. */
  function AfterToggleMute(s: PlayerState): (t: PlayerState)
    ensures t.isMuted == !s.isMuted && t.isPlaying == s.isPlaying
  {
    s.(isMuted := !s.isMuted)
  }

  function Step(s: PlayerState, e: Event): PlayerState {
    match e
    case ToggleAudio(ok) => AfterToggleAudio(s, ok)
    case ToggleMute => AfterToggleMute(s)
    case Ended => s.(isPlaying := false)
  }

  /** The state after a run of events. */
  function Run(s: PlayerState, es: seq<Event>): PlayerState
    decreases |es|
  {
    if es == [] then s else Run(Step(s, es[0]), es[1..])
  }

  /** The button shows the muted icon while muted or stopped. */
  predicate MutedIcon(s: PlayerState) {
    s.isMuted || !s.isPlaying
  }

  /** Sound is heard only after some play() has resolved: until then the player never plays. */
  lemma {:induction false} PlayingNeedsPlay(s: PlayerState, es: seq<Event>)
    requires !s.isPlaying
    ensures Run(s, es).isPlaying ==> ToggleAudio(true) in es
    decreases |es|
  {
    if es != [] {
      var t := Step(s, es[0]);
      if es[0] == ToggleAudio(true) {
      } else {
        assert !t.isPlaying;
        PlayingNeedsPlay(t, es[1..]);
        assert es == [es[0]] + es[1..];
      }
    }
  }

  /** From the first render, the unmuted icon appears only after a successful play. */
  lemma UnmutedIconNeedsPlay(es: seq<Event>)
    ensures !MutedIcon(Run(Initial, es)) ==> ToggleAudio(true) in es
  {
    PlayingNeedsPlay(Initial, es);
  }

  class Player {
    var isPlaying: bool
    var isMuted: bool
    /** The audio element's own muted property. */
    var elementMuted: bool

    /** The element's flag follows the state: the [isMuted] effect and toggleMute both set it. */
    predicate Valid()
      reads this
    {
      elementMuted == isMuted
    }

    function State(): PlayerState
      reads this
    {
      PlayerState(isPlaying, isMuted)
    }

    /** The first render and its mount effect: stopped and muted. */
    constructor()
      ensures Valid() && State() == Initial
    {
      isPlaying := false;
      isMuted := true;
      elementMuted := true;
    }

    /** toggleAudio, given whether the element's play() resolves. */
    method HandleToggleAudio(playSucceeds: bool)
      requires Valid()
      modifies this
      ensures Valid() && State() == AfterToggleAudio(old(State()), playSucceeds)
    {
      if isPlaying {
        isPlaying := false;
      } else if playSucceeds {
        isPlaying := true;
        isMuted := false;
        elementMuted := isMuted;
      }
    }

    /** toggleMute: the state flag and the element's flag take the new value together. */
    method HandleToggleMute()
      requires Valid()
      modifies this
      ensures Valid() && State() == AfterToggleMute(old(State()))
      ensures elementMuted == !old(isMuted)
    {
      var newMuted := !isMuted;
      isMuted := newMuted;
      elementMuted := newMuted;
    }

    /**
     * The element's "ended" listener. The element carries the loop attribute, under which a
     * media element restarts at its end and never fires "ended"; the handler is kept as written.
     */
    method HandleEnded()
      requires Valid()
      modifies this
      ensures Valid() && State() == Step(old(State()), Ended)
    {
      isPlaying := false;
    }

    /** The icon on the button. */
    function ShowsMutedIcon(): (b: bool)
      reads this
      ensures b <==> MutedIcon(State())
    {
      isMuted || !isPlaying
    }
  }
}
