# Music player state machine in Dafny

This project models the `MusicPlayer` component of a browser music-player
widget (`src/component/musicPlayer.js`). The widget shows one song of a fixed
playlist. It moves to the next song every 4000 ms while playing. It has
forward, backward and play/pause controls. A "now playing" notification can
be closed, and the next automatic advance shows it again.

The model has four modules:

- `Playlist` (`playlist.dfy`) holds the index arithmetic of the forward and
  backward controls. `NextIdx` is `(i + 1) % n`. `PrevIdx` picks `n - 1` when
  `i - 1` is negative and then reduces modulo `n`. Around them are the
  inverse laws, the closed form of `k` forward steps and the full cycle of
  `n` steps.
- `PlayerModel` (`player_model.dfy`) treats the state machine as values. A
  `Player` holds the song index, `isPlaying` and `showPrompt`. It also holds
  the state of the single auto-advance timer: whether a timer is scheduled,
  and how many milliseconds have passed since it was scheduled. Each handler
  is a function. `RunEffect` models the effect at lines 53-64. It runs again
  only when a dependency's value changed (the index or `isPlaying`; the song
  count is constant). When it runs, it cancels the old timer and, while
  playing, schedules a fresh 4000 ms one. `Elapse(s, n, dt)` is the passage of
  `dt` milliseconds. The timer fires each time its deadline is reached.
- `PlayerProperties` (`player_properties.dfy`) holds the lemmas that relate
  several transitions. These include the closed form of time passing while
  playing, the round trip of play/pause, the idempotence of close, and the
  one-song behaviour.
- `MusicPlayerComponent` (`music_player.dfy`) is the component as a class.
  The `useState` hooks become fields, plus two timer fields. Each handler is a
  method that updates the fields and then calls `Rerender`, which runs the
  effect. Each method is proved to produce exactly the state of the matching
  `PlayerModel` function. `Elapse` is a loop that models the event loop: it
  fires the scheduled timer as long as its deadline falls within the time
  that passes. `PlayerScenarios` (`player_scenarios.dfy`) drives the class
  through the runs that the component's test suite describes.

Behaviour that follows from the code and that the model keeps:

- Any change of the index or of `isPlaying` restarts the 4000 ms window. This
  includes manual forward and backward steps, because the effect's dependency
  list contains the index (`src/component/musicPlayer.js:64`).
- Play/pause pressed twice restores the song, the playing flag and the
  notification, but the window starts again from zero.
- With a single song, a tick computes `(0 + 1) % 1 = 0`. The index does not
  change, so the effect does not run again and no new timer is scheduled. The
  player stays "playing" with no timer until play/pause is pressed. So "the
  timer is active exactly while playing" holds only for two songs or more
  (`TimerActiveIffPlaying`). With one song, forward and backward leave the
  whole state, timer included, as it was (`Next`, `Previous`), so a closed
  notification is reopened at most once until play/pause is pressed
  (`SingleSongTicksOnce`).
- The effect's cleanup calls `clearInterval` on a `setTimeout` handle.
  Browsers share one pool of identifiers between the two, so this cancels
  the timer, and the model treats it as a cancellation.

The song list must not be empty (`requires |data| > 0`). With no songs, the
source's `% songs.length` yields NaN and `songs[0]` is undefined.

## Model

| member | source | states |
|---|---|---|
| `Playlist.NextIdx` | src/component/musicPlayer.js:70-72 | the next index stays in `[0, n)`: it is `i + 1`, or `0` after the last song |
| `Playlist.PrevIdx` | src/component/musicPlayer.js:74-78 | the previous index stays in `[0, n)`: it is `i - 1`, or `n - 1` from the first song |
| `Playlist.PrevAfterNext` | src/component/musicPlayer.js:70-78 | backward after forward returns to the same index |
| `Playlist.NextAfterPrev` | src/component/musicPlayer.js:70-78 | forward after backward returns to the same index |
| `Playlist.NextPow` | src/component/musicPlayer.js:71 | any number of forward steps stays inside the playlist |
| `Playlist.NextPowIsShift` | src/component/musicPlayer.js:71 | `k` forward steps from `i` land on `(i + k) % n` |
| `Playlist.FullCycle` | src/component/musicPlayer.js:71 | `n` consecutive forward steps return to the starting song |
| `Playlist.PrevIsNextPow` | src/component/musicPlayer.js:70-78 | one backward step equals `n - 1` forward steps |
| `PlayerModel.Init` | src/component/musicPlayer.js:48-61 | the first song, playing, notification shown, and a timer scheduled at time zero |
| `PlayerModel.RunEffect` | src/component/musicPlayer.js:53-64 | when the index or the playing flag changed, the timer is rescheduled from zero exactly when playing; otherwise the state, timer included, is left alone |
| `PlayerModel.Next` | src/component/musicPlayer.js:70-72 | forward moves to `NextIdx` and keeps the playing flag and the notification; with one song it changes nothing, timer included; it keeps the invariant |
| `PlayerModel.Previous` | src/component/musicPlayer.js:74-78 | backward moves to `PrevIdx` and keeps the playing flag and the notification; with one song it changes nothing, timer included; it keeps the invariant |
| `PlayerModel.PlayPause` | src/component/musicPlayer.js:66-68 | negates the playing flag, keeps song and notification, schedules a fresh timer exactly when it starts playing |
| `PlayerModel.Close` | src/component/musicPlayer.js:80-82 | hides the notification and changes neither the song, the playing flag nor the timer |
| `PlayerModel.Fire` | src/component/musicPlayer.js:57-60 | the tick advances to `NextIdx`, shows the notification, and a new timer is scheduled exactly when there are two songs or more |
| `PlayerModel.Elapse` | src/component/musicPlayer.js:53-64 | time passing keeps the invariant and the playing flag; with no timer scheduled it changes nothing; before the deadline only the elapsed time grows |
| `PlayerProperties.InitIsValid` | src/component/musicPlayer.js:48-64 | the mounted state satisfies the invariant for every nonempty playlist |
| `PlayerProperties.TimerActiveIffPlaying` | src/component/musicPlayer.js:53-64 | with two songs or more, a timer is scheduled if and only if playing |
| `PlayerProperties.ManualStepRestartsWindow` | src/component/musicPlayer.js:53-78 | with two songs or more, forward and backward always change the song and restart the 4000 ms window (or keep the timer off when paused) |
| `PlayerProperties.PlayPauseTwice` | src/component/musicPlayer.js:66-68 | play/pause twice restores song, playing flag and notification, and restarts the window |
| `PlayerProperties.CloseIdempotent` | src/component/musicPlayer.js:80-82 | closing the notification twice is the same as closing it once |
| `PlayerProperties.PausedTimeStandsStill` | src/component/musicPlayer.js:53-61 | while paused, any amount of time leaves the state unchanged |
| `PlayerProperties.ElapseWhilePlaying` | src/component/musicPlayer.js:53-64 | while playing with two songs or more, after `dt` ms the index is `(i + (e + dt) / 4000) % n`, the window has run `(e + dt) % 4000` ms, and the notification is shown if a tick fired |
| `PlayerProperties.SingleSongTicksOnce` | src/component/musicPlayer.js:53-64 | with one song the first tick keeps the song and shows the notification, after which no timer is scheduled |
| `MusicPlayerComponent.MusicPlayer.constructor` | src/component/musicPlayer.js:47-51 | mounting gives the initial state over the given song list |
| `MusicPlayerComponent.MusicPlayer.CurrentSong` | src/component/musicPlayer.js:86-87 | the song shown is always an element of the playlist |
| `MusicPlayerComponent.MusicPlayer.Rerender` | src/component/musicPlayer.js:53-64 | the fields after the effect are `RunEffect` of the state before the handler and the state after it |
| `MusicPlayerComponent.MusicPlayer.OnNext` | src/component/musicPlayer.js:70-72 | the new state is `Next` of the old one, and the invariant is kept |
| `MusicPlayerComponent.MusicPlayer.OnPrevious` | src/component/musicPlayer.js:74-78 | the new state is `Previous` of the old one, and the invariant is kept |
| `MusicPlayerComponent.MusicPlayer.OnPlayPause` | src/component/musicPlayer.js:66-68 | the new state is `PlayPause` of the old one, and the invariant is kept |
| `MusicPlayerComponent.MusicPlayer.OnClose` | src/component/musicPlayer.js:80-82 | the new state is `Close` of the old one, and the invariant is kept |
| `MusicPlayerComponent.MusicPlayer.TimerFires` | src/component/musicPlayer.js:57-60 | the new state is `Fire` of the old one, and the invariant is kept |
| `MusicPlayerComponent.MusicPlayer.Elapse` | src/component/musicPlayer.js:53-64 | the firing loop ends in the state `PlayerModel.Elapse` gives for the same time span |
| `PlayerScenarios.AutoAdvanceScenario` | src/App.test.js:32-91 | 4100 ms after mounting, the second song is shown in the main box (lines 32-62) and the notification is visible and names it (lines 79-91) |
| `PlayerScenarios.CloseReopenScenario` | src/App.test.js:93-108 | a closed notification is hidden and reappears, naming the second song, 4100 ms later |
| `PlayerScenarios.PlayPauseToggleScenario` | src/App.test.js:110-123 | play/pause pauses, and a second press plays again |
| `PlayerScenarios.PauseKeepsSongScenario` | src/App.test.js:125-138 | paused right after mounting, the first song and its notification remain after 4100 ms |
| `PlayerScenarios.PauseResumeScenario` | src/App.test.js:140-167 | pause and play at 500 ms: the first song is still shown 3600 ms later, and the second 500 ms after that |
| `PlayerScenarios.BackwardScenario` | src/App.test.js:169-197 | from the first song, backward gives the last song and then the one before it |
| `PlayerScenarios.ForwardScenario` | src/App.test.js:199-226 | from the first song, forward gives the second song and then the third |

## Left out

- Rendering (`CurrentlyRunningMusic`, `MusicPreview`, `CustomPrompt`, the markup of `MusicPlayer`, the play/pause icon path and the CSS) is presentation only. The model exposes the current song and the notification flag that the markup reads.
- `src/App.js` only mounts the component under a third-party navigation bar. It has no logic.
- `data.json` is not part of this model. The song list is a constructor parameter, and only its length and order matter.
- Real timer scheduling is not modelled: `setTimeout`, `clearInterval`, React's effect scheduling and batching. Time is an explicit `dt` argument in milliseconds. The timer fires when the elapsed time reaches exactly 4000 ms, with no scheduling jitter.
- The effect's cleanup on unmount is out of scope, because the model covers one mounted component.
- `setSongs` is never called, so the song list is a `const`.
