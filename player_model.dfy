/**
 * The player's state machine as values. A `Player` is a snapshot of the
 * component's state (the song index, the playing flag, the prompt flag) plus
 * the state of its one auto-advance timer: whether a timer is scheduled and
 * how many milliseconds have passed since it was scheduled.
 *
 * Every handler first updates the state; the component's effect then runs
 * again exactly when one of its dependencies (the playing flag, the index,
 * the song count) has a different value: it cancels the scheduled timer and,
 * when playing, schedules a fresh 4000 ms one (`RunEffect`). The song count
 * never changes, so only the other two dependencies matter.
 */
module PlayerModel {
  import opened Playlist

  /** Milliseconds from scheduling the timer to its firing. */
  const Delay: nat := 4000

  datatype Player = Player(
    index: nat,      // which song is current
    playing: bool,   // play or pause
    prompt: bool,    // "now playing" notification shown
    pending: bool,   // a timer is scheduled
    elapsed: nat     // milliseconds since that timer was scheduled
  )

  /**
   * The states the component can be in with `n` songs. A scheduled timer
   * exists only while playing and has not yet reached its deadline. While
   * playing without a scheduled timer the playlist has a single song: the
   * tick then leaves the index as it was and nothing schedules another.
   */
  predicate Inv(s: Player, n: nat) {
    && s.index < n
    && (s.pending ==> s.playing && s.elapsed < Delay)
    && (!s.pending ==> s.elapsed == 0)
    && (s.playing && !s.pending ==> n == 1)
  }

  /** The first render followed by the effect's first run. */
  function Init(): (s: Player)
    ensures s.index == 0 && s.playing && s.prompt
    ensures s.pending && s.elapsed == 0
  {
    Player(0, true, true, true, 0)
  }

  /**
   * The effect after a state change from `before` to `after`: when the index
   * or the playing flag changed, the pending timer is cancelled and, if
   * playing, a fresh one is scheduled; otherwise the timer is left alone.
   */
  function RunEffect(before: Player, after: Player): (r: Player)
    ensures r.index == after.index && r.playing == after.playing && r.prompt == after.prompt
    ensures after.index != before.index || after.playing != before.playing ==>
              r.pending == r.playing && r.elapsed == 0
    ensures after.index == before.index && after.playing == before.playing ==> r == after
  {
    if after.index != before.index || after.playing != before.playing then
      after.(pending := after.playing, elapsed := 0)
    else
      after
  }

  /** The forward control. */
  function Next(s: Player, n: nat): (r: Player)
    requires Inv(s, n)
    ensures Inv(r, n)
    ensures r.index == NextIdx(s.index, n)
    ensures r.playing == s.playing && r.prompt == s.prompt
    ensures n == 1 ==> r == s
  {
    RunEffect(s, s.(index := NextIdx(s.index, n)))
  }

  /** The backward control. */
  function Previous(s: Player, n: nat): (r: Player)
    requires Inv(s, n)
    ensures Inv(r, n)
    ensures r.index == PrevIdx(s.index, n)
    ensures r.playing == s.playing && r.prompt == s.prompt
    ensures n == 1 ==> r == s
  {
    RunEffect(s, s.(index := PrevIdx(s.index, n)))
  }

  /** The play/pause control. */
  function PlayPause(s: Player, n: nat): (r: Player)
    requires Inv(s, n)
    ensures Inv(r, n)
    ensures r.playing == !s.playing
    ensures r.index == s.index && r.prompt == s.prompt
    ensures r.pending == r.playing && r.elapsed == 0
  {
    RunEffect(s, s.(playing := !s.playing))
  }

  /** The close button of the notification. */
  function Close(s: Player, n: nat): (r: Player)
    requires Inv(s, n)
    ensures Inv(r, n)
    ensures !r.prompt
    ensures r.index == s.index && r.playing == s.playing
    ensures r.pending == s.pending && r.elapsed == s.elapsed
  {
    RunEffect(s, s.(prompt := false))
  }

  /**
   * The scheduled timer fires: it advances to the next song and shows the
   * notification. The timer has fired, so nothing is scheduled until the
   * effect runs again, which it does only when the index really changed.
   * Only `Elapse` applies it, at the moment the deadline is reached.
   */
  function Fire(s: Player, n: nat): (r: Player)
    requires Inv(s, n) && s.pending
    ensures Inv(r, n)
    ensures r.index == NextIdx(s.index, n)
    ensures r.playing && r.prompt
    ensures r.pending <==> n > 1
    ensures r.elapsed == 0
  {
    RunEffect(s, s.(index := NextIdx(s.index, n), prompt := true, pending := false, elapsed := 0))
  }

  /**
   * `dt` milliseconds pass. Each time the scheduled timer reaches its
   * deadline it fires, and the rest of `dt` counts against the timer the
   * effect schedules next, if any.
   */
  function Elapse(s: Player, n: nat, dt: nat): (r: Player)
    requires Inv(s, n)
    ensures Inv(r, n)
    ensures r.playing == s.playing
    ensures !s.pending ==> r == s
    ensures s.pending && s.elapsed + dt < Delay ==> r == s.(elapsed := s.elapsed + dt)
    decreases dt
  {
    if !s.pending then s
    else if s.elapsed + dt < Delay then s.(elapsed := s.elapsed + dt)
    else Elapse(Fire(s, n), n, s.elapsed + dt - Delay)
  }
}
