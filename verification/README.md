# Playback queue of a Discord music bot, in Dafny

This project models the core of a small Discord music bot written in Python:
the playback queue state machine that lives in the bot's module-level globals.
The bot downloads a YouTube track into `music/`, appends its file path and
title to two parallel lists (`queue` and `sname`), starts the next track when
nothing is current, re-arms a 300-second inactivity timer every time a track
starts, deletes each file when its track ends, and disconnects from the voice
channel when the timer fires while no song is current.

The whole state is one immutable record, `BotState.Bot`. It holds one set of
globals for the whole process, not one per guild, because that is how the
source keeps it. The record has these parts:

- `queue`, `names`: the `queue` and `sname` lists.
- `current`: `current_song`. Its Python truthiness is `Truthy`.
- `timer`: the `inactive_timer` handle. It indexes `timers`, the history of
  every timer ever armed (armed, cancelled or fired).
- `status`: the presence text `uf`.
- `channel`: the `channel` global.
- `sink`: an abstract voice connection with `connected`, `playing` and `room`.
- `files`: the set of files in `music/`.

Each command and callback is a pure function from a state to a `Step`. A
`Step` holds the new state, the chat messages sent and whether the handler
ended in an exception. Where the Python code raises part-way, the model keeps
the state as it was at the raise. For example, `queue.pop(0)` has already run
when `sname[0]` fails on an empty list.

Modules:

- `Wrappers` (`wrappers.dfy`): `Option`.
- `TrackPath` (`track_path.dfy`): the random 5-letter suffix, and the file path
  `music/<video id><suffix>.mp3` together with its parser.
- `BotState` (`bot_state.dfy`): the state record, the timer history, and
  cancel/re-arm.
- `Transitions` (`transitions.dfy`): `play`, `skip`, `leave`, `play_next_song`,
  `cleanup`, `song_finished`, `check_inactive` and the timer firing.
- `Invariants` (`invariants.dfy`): the invariant every reachable state keeps,
  and the proof that every event preserves it.
- `Playback` (`playback.dfy`): FIFO order, when a song starts, the single live
  timer, and scenarios.

Two quirks of the source are kept on purpose:

- `leave` has no `global` declaration, so its `current_song = None` binds a
  local. The global current song survives `leave`.
- `channel = None` in the empty branch of `play_next_song` is also a local
  binding. The global `channel` is unchanged.

Some behaviour expected of a playback scheduler of this kind is not in the
code, and the model follows the code:

- The state is global, not per guild.
- There is no cache, no eviction, no session registry and no background
  fetcher.
- `check_inactive` only stops and disconnects the sink. It does not clear the
  queue or the timer handle.
- `skip` has no recovery path for a current song with an idle sink. It only
  calls `stop()`.
- A track that fails to start is not discarded and retried. The exception
  leaves the popped state behind.

One consequence of the code as written is proved in
`Playback.IdleWithoutLiveTimer`. The timer is armed only when a track starts.
So if a track outlasts the delay, the timer fires while that track is still
current and does nothing. When the queue then runs dry, the bot stays
connected with no live timer. No timer is live until another song starts, so
while the bot stays idle nothing disconnects it for inactivity.

The `leave` quirk has a visible effect, proved in
`Playback.LeaveThenPlayOnlyQueues`. After `leave` during a song, the current
song is still set. A `play` right afterwards rejoins the channel, queues the
new song and sends "Added to queue", but starts nothing and arms no timer.
The queued song starts only when the `after` callback of the song that
`leave` stopped arrives (`Transitions.SongFinished`).

## Model

| member | source | states |
|---|---|---|
| TrackPath.RandomSuffix | bot.py:73-75 | five draws from `ascii_letters` give a suffix of exactly five ASCII letters, the i-th being the i-th drawn letter |
| TrackPath.MakePath | bot.py:78 | the file path starts with `music/`, ends with `.mp3`, is never empty and its length is the sum of its parts |
| TrackPath.ParseMakePath | bot.py:78 | parsing a generated path gives back the video id and the suffix it was made from |
| TrackPath.MakeParsePath | bot.py:78 | every string that parses is exactly the path built from its parsed parts (the other direction of the round trip) |
| TrackPath.MakePathInjective | bot.py:73-78 | two downloads get the same file exactly when both the video id and the random suffix agree |
| BotState.Initial | bot.py:22-27 | at start-up both lists are empty, nothing is current, there is no timer, the status is "idle" and the bot is not connected |
| BotState.CancelTimer | bot.py:160-161 | cancelling takes the handle out of the live timers and changes no other timer |
| BotState.Rearm | bot.py:160-162 | the previous handle stops being live and exactly one new timer becomes live and becomes the global handle; nothing else in the state changes |
| Transitions.Advance | bot.py:145-166 | on a non-empty queue the old head path becomes current, both lists lose their head, the status becomes the old head title, the sink plays, "Playing song" is sent and a fresh timer replaces the old one; on an empty queue only current (to None) and status (to "idle") change, and the timer and `channel` stay; it raises exactly when the queue is non-empty and `sname` is empty, the sink is disconnected or the sink is already playing, and then leaves exactly the state at the raise point (queue popped; and, when a title was there, the title popped, the status set and the path made current), sending nothing |
| Transitions.Enqueue | bot.py:80-94 | the downloaded file is on disk; when a song is current, only the path and the title are appended (in the same position) and "Added to queue" is sent |
| Transitions.Play | bot.py:56-97 | a caller outside voice changes nothing; a caller in another channel than the connected one changes nothing and is told so; a disconnected bot joins the caller's channel; a failed download leaves the queue, current song, timers and files unchanged |
| Transitions.Skip | bot.py:100-105 | with no current song it does nothing; with one and a connection it stops the sink and sends "Song skipped" |
| Transitions.Leave | bot.py:108-118 | when not connected nothing changes; when connected it disconnects, clears both lists, cancels the live timer and sends "Disconnected"; the global current song is kept either way |
| Transitions.Cleanup | bot.py:141-143 | deletion succeeds exactly when the file exists, and then only that file is gone |
| Transitions.SongFinished | bot.py:168-174 | the finished file is deleted when present; a missing file raises, sends nothing and leaves everything but the stopped sink unchanged |
| Transitions.CheckInactive | bot.py:176-184 | with a current song nothing changes; otherwise the sink is stopped and disconnected, "Disconnected due to inactivity" is sent, and the queue and timer handle are untouched |
| Transitions.TimerFires | bot.py:162 | only an armed timer fires; firing makes that timer non-live, keeps the global handle and runs `check_inactive`: with a current song nothing else changes, otherwise the sink is stopped and disconnected and "Disconnected due to inactivity" is sent |
| Invariants.AtMostOneTimer | bot.py:160-162 | under the timer invariant at most one timer is live, and a live one is the `inactive_timer` handle |
| Invariants.InitialInv | bot.py:22-27 | the start-up state satisfies the invariant |
| Invariants.AdvanceInv | bot.py:150-165 | `play_next_song` on a non-playing sink keeps the invariant and never raises |
| Invariants.ParallelPreserved | bot.py:84-153 | every command and callback keeps `queue` and `sname` the same length, assuming only that they were |
| Invariants.PlayInv | bot.py:56-97 | `play` keeps the invariant |
| Invariants.SkipInv | bot.py:100-105 | `skip` keeps the invariant |
| Invariants.LeaveInv | bot.py:108-118 | `leave` keeps the invariant, even though it keeps the current song |
| Invariants.SongFinishedInv | bot.py:168-174 | `song_finished` keeps the invariant, and does not raise when the file exists |
| Invariants.TimerFiresInv | bot.py:176-184 | a timer firing keeps the invariant |
| Invariants.ApplyInv | bot.py:56-184 | every event keeps the invariant |
| Invariants.RunInv | bot.py:56-184 | every sequence of events keeps the invariant |
| Invariants.ReachableAtMostOneTimer | bot.py:160-162 | in every state reachable from start-up, at most one inactivity timer is live |
| Playback.FifoOrder | bot.py:150-154 | successive track ends make the queued paths current in exactly queue order |
| Playback.SongFinishedIsAdvance | bot.py:168-174 | `song_finished` on an existing file is `play_next_song` after the sink stopped and the file was deleted |
| Playback.AdvanceArmsOneTimer | bot.py:159-162 | when a song starts, the freshly armed timer is the only live timer |
| Playback.LeaveStopsTimer | bot.py:115-116 | after `leave` on a connected bot no timer is live |
| Playback.PlayStartsWhenIdle | bot.py:84-94 | `play` on an idle bot starts the new song at once, empties both lists, sends only "Playing song" (not "Added to queue") and leaves exactly one live timer |
| Playback.PlayWhileBusyQueues | bot.py:65-94 | while a song is current, `play` only appends to both lists, keeps the current song and timers, rejoins the caller's channel if disconnected (without playing), and sends "Added to queue" |
| Playback.LeaveThenPlayOnlyQueues | bot.py:108-118 | after `leave` during a song, `play` keeps the old current song, queues only the new one, rejoins without playing, leaves no live timer and sends "Added to queue" |
| Playback.ThreeSongsInOrder | bot.py:84-88 | songs A, B, C requested in order on an idle bot: A plays at once, then B and C become current in that order |
| Playback.NoLiveTimerNoFiring | bot.py:162 | with no live timer, no timer event changes the state or sends anything |
| Playback.IdleWithoutLiveTimer | bot.py:160-165 | after the timer fires during a long song and that song ends on an empty queue, the bot is idle and connected with no live timer |

## Left out

- Discord client plumbing is not modelled: intents, `on_ready`, `on_command`,
  the presence loop that shows `uf`, and `bot.run`. Chat replies are kept only
  as output events.
- `ping` is left out. It needs floating-point latency and a network query.
- `author` and `autor` are left out. They send constant replies.
- Logging is left out.
- pytube and FFmpeg are foreign calls. A download is the input `Fetched`, and
  a failed download is `None`. Files a failed download leaves behind are not
  modelled.
- `random.choice` is not modelled. Its draws are inputs to
  `TrackPath.RandomSuffix`.
- Real time and threads are not modelled: `call_later`,
  `run_coroutine_threadsafe` and the `after` callback thread. A timer firing
  and a track finishing are events the environment delivers, each as one
  atomic step, in any order.
- The 300-second delay is not modelled. A timer may fire at any point.
- Voice clients are one abstract sink. The model assumes exactly these facts
  about it:
  - a voice client exists exactly when it is connected;
  - the client captured by a timer is the current one;
  - `voice_channel.play` raises exactly when the client is disconnected or
    already playing, and otherwise makes it play;
  - `stop()` makes the client not playing, and is a no-op on an idle client;
  - `disconnect()` makes it neither connected nor playing, and is a no-op on
    a disconnected client;
  - a new connection starts out connected, not playing, in the caller's
    channel.
- Transitions.Play: its own contract covers the rejection, joining and
  failed-download paths. The enqueue path is stated by `Transitions.Enqueue`,
  `Playback.PlayStartsWhenIdle` (no current song) and
  `Playback.PlayWhileBusyQueues` (a current song, connected or not).
- Fetched: its suffix may be any string, more general than the five letters
  the source draws. Only `TrackPath.RandomSuffix` states the five-letter
  shape.
