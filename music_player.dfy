/**
 * The `MusicPlayer` component as an object: its state hooks become fields,
 * its handlers become methods that update them, and the timer effect becomes
 * a method that runs after every update. Each method is specified by the
 * corresponding transition of `PlayerModel`.
 */
module MusicPlayerComponent {
  import opened Playlist
  import opened PlayerModel

  /** One entry of the static song list. */
  datatype Song = Song(name: string, image: string)

  class MusicPlayer {
    /** The song list; it is loaded once and never replaced. */
    const songs: seq<Song>
    var currentRunningSongIndex: nat
    var isPlaying: bool
    var showPrompt: bool
    /** Whether the effect has a timer scheduled. */
    var timerPending: bool
    /** Milliseconds since that timer was scheduled. */
    var elapsed: nat

    /** A snapshot of the component's state. */
    function State(): (s: Player)
      reads this
    {
      Player(currentRunningSongIndex, isPlaying, showPrompt, timerPending, elapsed)
    }

    ghost predicate Valid()
      reads this
    {
      |songs| > 0 && Inv(State(), |songs|)
    }

    /** Mounting: the first song, playing, notification shown, first timer scheduled. */
    constructor (data: seq<Song>)
      requires |data| > 0
      ensures Valid() && songs == data
      ensures State() == Init()
    {
      songs := data;
      currentRunningSongIndex := 0;
      isPlaying := true;
      showPrompt := true;
      timerPending := true;
      elapsed := 0;
    }

    /** The song shown in the main box and named by the notification. */
    function CurrentSong(): (song: Song)
      reads this
      requires Valid()
      ensures song in songs
    {
      songs[currentRunningSongIndex]
    }

    /**
     * The effect runs again after a render whose dependencies differ from
     * those of `before`: the old timer is cleared and, while playing, a new
     * one is scheduled.
     */
    method Rerender(before: Player)
      modifies this
      ensures State() == RunEffect(before, old(State()))
    {
      if currentRunningSongIndex != before.index || isPlaying != before.playing {
        timerPending := isPlaying;
        elapsed := 0;
      }
    }

    method OnNext()
      requires Valid()
      modifies this
      ensures Valid()
      ensures State() == Next(old(State()), |songs|)
    {
      var before := State();
      currentRunningSongIndex := NextIdx(currentRunningSongIndex, |songs|);
      Rerender(before);
    }

    method OnPrevious()
      requires Valid()
      modifies this
      ensures Valid()
      ensures State() == Previous(old(State()), |songs|)
    {
      var before := State();
      currentRunningSongIndex := PrevIdx(currentRunningSongIndex, |songs|);
      Rerender(before);
    }

    method OnPlayPause()
      requires Valid()
      modifies this
      ensures Valid()
      ensures State() == PlayPause(old(State()), |songs|)
    {
      var before := State();
      isPlaying := !isPlaying;
      Rerender(before);
    }

    method OnClose()
      requires Valid()
      modifies this
      ensures Valid()
      ensures State() == Close(old(State()), |songs|)
    {
      var before := State();
      showPrompt := false;
      Rerender(before);
    }

    /**
     * The scheduled timer's callback, as one step of `Elapse`. The event loop
     * runs it only when the timer's 4000 ms deadline is reached, and `Elapse`
     * is the only caller that respects that deadline; calling it directly
     * fires the timer early.
     */
    method TimerFires()
      requires Valid() && timerPending
      modifies this
      ensures Valid()
      ensures State() == Fire(old(State()), |songs|)
    {
      var before := State();
      timerPending, elapsed := false, 0;
      currentRunningSongIndex := NextIdx(currentRunningSongIndex, |songs|);
      showPrompt := true;
      Rerender(before);
    }

    /**
     * `dt` milliseconds pass on the event loop: the scheduled timer fires
     * each time its deadline is reached, and whatever is left of `dt` runs
     * on the timer scheduled after it, if any.
     */
    method Elapse(dt: nat)
      requires Valid()
      modifies this
      ensures Valid()
      ensures State() == PlayerModel.Elapse(old(State()), |songs|, dt)
    {
      var left: nat := dt;
      while timerPending && elapsed + left >= Delay
        invariant Valid()
        invariant PlayerModel.Elapse(State(), |songs|, left) == PlayerModel.Elapse(old(State()), |songs|, dt)
        decreases left
      {
        left := elapsed + left - Delay;
        TimerFires();
      }
      if timerPending {
        elapsed := elapsed + left;
      }
    }
  }
}
