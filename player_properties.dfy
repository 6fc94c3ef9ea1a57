/**
 * What the player's transitions promise taken together: the timer's effect
 * over any span of time, the two controls that undo or repeat themselves,
 * and when the auto-advance timer is active.
 */
module PlayerProperties {
  import opened Playlist
  import opened PlayerModel

  /** The first state is one of the component's states for every song count. */
  lemma InitIsValid(n: nat)
    requires n > 0
    ensures Inv(Init(), n)
  {
  }

  /**
   * With more than one song the auto-advance timer is scheduled exactly
   * while playing.
   */
  lemma TimerActiveIffPlaying(s: Player, n: nat)
    requires Inv(s, n) && n > 1
    ensures s.pending <==> s.playing
  {
  }

  /**
   * With more than one song a manual step always lands on another song, and
   * so restarts the 4000 ms window when playing (and keeps the timer off
   * when paused).
   */
  lemma ManualStepRestartsWindow(s: Player, n: nat)
    requires Inv(s, n) && n > 1
    ensures Next(s, n).index != s.index && Previous(s, n).index != s.index
    ensures Next(s, n).pending == s.playing && Next(s, n).elapsed == 0
    ensures Previous(s, n).pending == s.playing && Previous(s, n).elapsed == 0
  {
  }

  /**
   * Pressing play/pause twice gives back the song, the playing flag and the
   * notification, but the timer window starts afresh.
   */
  lemma PlayPauseTwice(s: Player, n: nat)
    requires Inv(s, n)
    ensures var r := PlayPause(PlayPause(s, n), n);
      r.index == s.index && r.playing == s.playing && r.prompt == s.prompt &&
      r.pending == s.playing && r.elapsed == 0
  {
  }

  /** Closing the notification a second time changes nothing. */
  lemma CloseIdempotent(s: Player, n: nat)
    requires Inv(s, n)
    ensures Close(Close(s, n), n) == Close(s, n)
  {
  }

  /** While paused, time passing changes nothing. */
  lemma PausedTimeStandsStill(s: Player, n: nat, dt: nat)
    requires Inv(s, n) && !s.playing
    ensures Elapse(s, n, dt) == s
  {
  }

  /**
   * Playing with more than one song, `dt` milliseconds advance the song once
   * per full 4000 ms counted from when the current window started; the new
   * window has run for the remainder, and the notification is shown if at
   * least one tick fired.
   */
  lemma {:induction false} ElapseWhilePlaying(s: Player, n: nat, dt: nat)
    requires Inv(s, n) && n > 1 && s.playing
    ensures var r := Elapse(s, n, dt); var t := s.elapsed + dt;
      && r.index == NextPow(s.index, t / Delay, n)
      && r.index == (s.index + t / Delay) % n
      && r.elapsed == t % Delay
      && r.playing && r.pending
      && r.prompt == (s.prompt || t >= Delay)
    decreases dt
  {
    var t := s.elapsed + dt;
    if t >= Delay {
      var s' := Fire(s, n);
      ElapseWhilePlaying(s', n, t - Delay);
      NextPowFirst(s.index, t / Delay - 1, n);
    }
    NextPowIsShift(s.index, t / Delay, n);
  }

  /**
   * With a single song the first tick keeps the song and shows the
   * notification, and then no timer is scheduled any more: further time
   * changes nothing until play/pause is pressed.
   */
  lemma SingleSongTicksOnce(s: Player, dt: nat)
    requires Inv(s, 1)
    ensures var r := Elapse(s, 1, dt);
      && r.index == 0 && r.playing == s.playing
      && (s.pending && s.elapsed + dt >= Delay ==> r.prompt && !r.pending)
      && (!s.pending || s.elapsed + dt < Delay ==> r.prompt == s.prompt)
  {
  }
}
