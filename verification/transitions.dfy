/**
 The command handlers and callbacks of the bot as pure transitions over the
 global state. Discord, pytube and FFmpeg are abstracted: a download is an
 input, the voice connection is the `Sink` record, and the `after` callback
 and the timer firing are transitions the environment invokes.
 */
module Transitions {

  import opened Wrappers
  import opened BotState
  import TrackPath

  /**
   What a successful download yields: the result of `YouTube(url)` plus the
   random suffix. The suffix is any string here, more general than the five
   letters the source draws (see `TrackPath.RandomSuffix`); nothing in the
   queue logic depends on its shape.
   */
  datatype Fetched = Fetched(videoId: string, title: string, suffix: string)

  /** `play_next_song` reaches `voice_channel.play` and it accepts the track. */
  predicate Starts(b: Bot) {
    |b.queue| > 0 && |b.names| > 0 && b.sink.connected && !b.sink.playing
  }

  /**
   `play_next_song`. On a non-empty queue it pops the head path, takes the head
   title into `uf`, makes the path current, starts it on the sink, announces
   it and re-arms the inactivity timer. On an empty queue it resets
   `current_song` and `uf`; its `channel = None` binds a local, so the global
   `channel` is untouched, and the timer is left alone. Exceptions stop it
   midway: an empty `sname` at `sname[0]` after `queue.pop(0)`, and
   `voice_channel.play` on a missing connection or one already playing.
   */
  function Advance(b: Bot): (r: Step)
    ensures |b.queue| == 0 ==>
      && r.state == b.(current := None, status := Idle)
      && r.out == [] && !r.raised
    ensures Starts(b) ==>
      && r.state.current == Some(b.queue[0])
      && r.state.queue == b.queue[1..] && r.state.names == b.names[1..]
      && r.state.status == b.names[0]
      && r.state.sink == b.sink.(playing := true)
      && r.out == [NowPlaying(b.names[0])]
      && r.state.timer == Some(|b.timers|)
      && ArmedTimers(r.state.timers) == ArmedTimers(b.timers) - HandleSet(b.timer) + {|b.timers|}
    ensures r.raised <==> |b.queue| > 0 && !Starts(b)
    ensures r.raised ==> r.out == [] && r.state.queue == b.queue[1..] && r.state.timers == b.timers
    ensures r.raised && |b.names| == 0 ==> r.state == b.(queue := b.queue[1..])
    ensures r.raised && |b.names| > 0 ==>
      r.state == b.(queue := b.queue[1..], names := b.names[1..], status := b.names[0], current := Some(b.queue[0]))
    ensures r.state.files == b.files && r.state.channel == b.channel
    ensures r.state.sink.connected == b.sink.connected && r.state.sink.room == b.sink.room
  {
    if |b.queue| == 0 then
      Step(b.(current := None, status := Idle), [], false)
    else
      var path := b.queue[0];
      var popped := b.(queue := b.queue[1..]);
      if |b.names| == 0 then
        Step(popped, [], true)
      else
        var title := b.names[0];
        var taken := popped.(names := b.names[1..], status := title, current := Some(path));
        if !b.sink.connected || b.sink.playing then
          Step(taken, [], true)
        else
          var started := taken.(sink := b.sink.(playing := true));
          Step(Rearm(started), [NowPlaying(title)], false)
  }

  /**
   The `try` body of `play` after the download: record the file, append the
   path and the title, start playback when no song is current, and announce
   the addition when the queue is still non-empty.
   */
  function Enqueue(b: Bot, f: Fetched): (r: Step)
    ensures TrackPath.MakePath(f.videoId, f.suffix) in r.state.files
    ensures Truthy(b.current) ==>
      && r.state == b.(queue := b.queue + [TrackPath.MakePath(f.videoId, f.suffix)],
                       names := b.names + [f.title],
                       files := b.files + {TrackPath.MakePath(f.videoId, f.suffix)})
      && r.out == [AddedToQueue(f.title)]
  {
    var path := TrackPath.MakePath(f.videoId, f.suffix);
    var queued := b.(queue := b.queue + [path], names := b.names + [f.title], files := b.files + {path});
    if Truthy(queued.current) then
      Step(queued, [AddedToQueue(f.title)], false)
    else
      var a := Advance(queued);
      if a.raised then
        Step(a.state, a.out, true)
      else
        Step(a.state, a.out + (if |a.state.queue| >= 1 then [AddedToQueue(f.title)] else []), false)
  }

  /**
   The `play` command. `requester` is the caller's voice channel (`None` when
   the caller is in none, where the source fails on `.channel`); `fetched` is
   the download, `None` when pytube fails and the exception is logged.
   */
  function Play(b: Bot, requester: Option<ChannelId>, fetched: Option<Fetched>): (r: Step)
    ensures requester.None? ==> r.state == b && r.out == [] && r.raised
    ensures requester.Some? && b.sink.connected && b.sink.room != requester.value ==>
      r.state == b && r.out == [ConnectedElsewhere]
    ensures requester.Some? && !b.sink.connected ==>
      r.state.sink.connected && r.state.sink.room == requester.value && r.state.channel == requester
    ensures requester.Some? && fetched.None? && (b.sink.connected ==> b.sink.room == requester.value) ==>
      && r.state.queue == b.queue && r.state.names == b.names && r.state.current == b.current
      && r.state.timers == b.timers && r.state.timer == b.timer && r.state.files == b.files
      && r.state.sink.connected && r.state.sink.room == requester.value
      && r.out == [] && r.raised
  {
    if requester.None? then
      Step(b, [], true)
    else if b.sink.connected && b.sink.room != requester.value then
      Step(b, [ConnectedElsewhere], false)
    else
      var joined := if b.sink.connected then b
                    else b.(sink := Sink(true, false, requester.value), channel := requester);
      match fetched
      case None => Step(joined, [], true)
      case Some(f) => Enqueue(joined, f)
  }

  /**
   The `skip` command: only when a song is current, stop the sink (its
   `after` callback then reports the end of the song). Without a connection
   the `.stop()` call fails.
   */
  function Skip(b: Bot): (r: Step)
    ensures !Truthy(b.current) ==> r.state == b && r.out == [] && !r.raised
    ensures Truthy(b.current) && b.sink.connected ==>
      r.state == b.(sink := b.sink.(playing := false)) && r.out == [Skipped]
    ensures Truthy(b.current) && !b.sink.connected ==> r.state == b && r.raised
  {
    if !Truthy(b.current) then Step(b, [], false)
    else if !b.sink.connected then Step(b, [], true)
    else Step(b.(sink := b.sink.(playing := false)), [Skipped], false)
  }

  /**
   The `leave` command: when connected, disconnect, clear both lists and
   cancel the timer. `current_song = None` there binds a local (there is no
   `global` declaration), so the global current song survives. Without a
   connection the `.is_connected()` call fails.
   */
  function Leave(b: Bot): (r: Step)
    ensures r.state.current == b.current && r.state.files == b.files && r.state.status == b.status
    ensures !b.sink.connected ==> r.state == b && r.out == [] && r.raised
    ensures b.sink.connected ==>
      && r.state.queue == [] && r.state.names == []
      && !r.state.sink.connected && !r.state.sink.playing
      && r.state.timer == b.timer
      && ArmedTimers(r.state.timers) == ArmedTimers(b.timers) - HandleSet(b.timer)
      && r.out == [Disconnected]
  {
    if !b.sink.connected then Step(b, [], true)
    else
      var left := b.(sink := b.sink.(connected := false, playing := false), queue := [], names := []);
      Step(left.(timers := CancelTimer(b.timers, b.timer)), [Disconnected], false)
  }

  /** `cleanup`: removing a file that is not there raises. */
  function Cleanup(files: set<string>, path: string): (r: Option<set<string>>)
    ensures path in files <==> r.Some?
    ensures r.Some? ==> r.value == files - {path} && path !in r.value
  {
    if path in files then Some(files - {path}) else None
  }

  /**
   `song_finished`, the sink's `after` callback: the player has stopped; the
   finished file is deleted and `play_next_song` runs. A missing file makes
   `os.remove` raise before the queue advances.
   */
  function SongFinished(b: Bot, path: string): (r: Step)
    ensures path !in b.files ==> r.state == b.(sink := b.sink.(playing := false)) && r.out == [] && r.raised
    ensures path in b.files ==> path !in r.state.files && r.state.files == b.files - {path}
  {
    var stopped := b.(sink := b.sink.(playing := false));
    match Cleanup(b.files, path)
    case None => Step(stopped, [], true)
    case Some(rest) => Advance(stopped.(files := rest))
  }

  /**
   `check_inactive`: when no song is current, stop and disconnect the sink
   and say so; otherwise do nothing. The queue and the timer handle are not
   touched.
   */
  function CheckInactive(b: Bot): (r: Step)
    ensures Truthy(b.current) ==> r.state == b && r.out == []
    ensures !Truthy(b.current) ==>
      && r.state == b.(sink := b.sink.(connected := false, playing := false))
      && r.out == [DisconnectedIdle]
    ensures !r.raised
  {
    if Truthy(b.current) then Step(b, [], false)
    else Step(b.(sink := b.sink.(connected := false, playing := false)), [DisconnectedIdle], false)
  }

  /**
   The event loop firing timer `handle`: only a timer that is still armed
   fires; it becomes fired and runs `check_inactive`.
   */
  function TimerFires(b: Bot, handle: nat): (r: Step)
    ensures handle >= |b.timers| || b.timers[handle] != Armed ==> r.state == b && r.out == []
    ensures handle < |b.timers| && b.timers[handle] == Armed ==>
      && ArmedTimers(r.state.timers) == ArmedTimers(b.timers) - {handle}
      && r.state.timer == b.timer
      && (Truthy(b.current) ==> r.state == b.(timers := b.timers[handle := Fired]) && r.out == [])
      && (!Truthy(b.current) ==>
            && r.state == b.(timers := b.timers[handle := Fired], sink := b.sink.(connected := false, playing := false))
            && r.out == [DisconnectedIdle])
  {
    if handle >= |b.timers| || b.timers[handle] != Armed then Step(b, [], false)
    else
      var fired := b.(timers := b.timers[handle := Fired]);
      assert ArmedTimers(fired.timers) == ArmedTimers(b.timers) - {handle};
      CheckInactive(fired)
  }
}
