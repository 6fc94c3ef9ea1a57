/**
 * Client runs of the component, one per behaviour its test suite checks,
 * phrased for any song list long enough for the behaviour to show.
 */
module PlayerScenarios {
  import opened MusicPlayerComponent

  /** After 4100 ms the second song is shown and named by the notification. */
  method AutoAdvanceScenario(data: seq<Song>) returns (first: Song, later: Song, shown: bool)
    requires |data| > 1
    ensures first == data[0] && later == data[1] && shown
  {
    var player := new MusicPlayer(data);
    first := player.CurrentSong();
    player.Elapse(4100);
    later := player.CurrentSong();
    shown := player.showPrompt;
  }

  /** A closed notification reopens, naming the next song, at the next tick. */
  method CloseReopenScenario(data: seq<Song>) returns (closed: bool, reopened: bool, later: Song)
    requires |data| > 1
    ensures !closed && reopened && later == data[1]
  {
    var player := new MusicPlayer(data);
    player.OnClose();
    closed := player.showPrompt;
    player.Elapse(4100);
    reopened := player.showPrompt;
    later := player.CurrentSong();
  }

  /** Play/pause shows the paused state and then the playing state again. */
  method PlayPauseToggleScenario(data: seq<Song>) returns (paused: bool, resumed: bool)
    requires |data| > 0
    ensures !paused && resumed
  {
    var player := new MusicPlayer(data);
    player.OnPlayPause();
    paused := player.isPlaying;
    player.OnPlayPause();
    resumed := player.isPlaying;
  }

  /** Paused at once, the first song stays, with its notification, after 4100 ms. */
  method PauseKeepsSongScenario(data: seq<Song>) returns (later: Song, shown: bool)
    requires |data| > 0
    ensures later == data[0] && shown
  {
    var player := new MusicPlayer(data);
    player.OnPlayPause();
    player.Elapse(4100);
    later := player.CurrentSong();
    shown := player.showPrompt;
  }

  /**
   * Pause and play pressed 500 ms after mounting: 3600 ms later the first
   * song is still shown, with its notification; 500 ms after that the
   * second one is.
   */
  method PauseResumeScenario(data: seq<Song>)
    returns (before: Song, shownBefore: bool, after: Song, shown: bool)
    requires |data| > 1
    ensures before == data[0] && shownBefore && after == data[1] && shown
  {
    var player := new MusicPlayer(data);
    player.Elapse(500);
    player.OnPlayPause();
    player.OnPlayPause();
    player.Elapse(3600);
    before := player.CurrentSong();
    shownBefore := player.showPrompt;
    player.Elapse(500);
    after := player.CurrentSong();
    shown := player.showPrompt;
  }

  /** From the first song, backward twice shows the last song, then the one before it. */
  method BackwardScenario(data: seq<Song>) returns (once: Song, twice: Song)
    requires |data| > 1
    ensures once == data[|data| - 1] && twice == data[|data| - 2]
  {
    var player := new MusicPlayer(data);
    player.OnPrevious();
    once := player.CurrentSong();
    player.OnPrevious();
    twice := player.CurrentSong();
  }

  /** From the first song, forward twice shows the second song, then the third. */
  method ForwardScenario(data: seq<Song>) returns (once: Song, twice: Song)
    requires |data| > 2
    ensures once == data[1] && twice == data[2]
  {
    var player := new MusicPlayer(data);
    player.OnNext();
    once := player.CurrentSong();
    player.OnNext();
    twice := player.CurrentSong();
  }
}
