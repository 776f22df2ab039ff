/**
 Properties relating several steps of the bot: playback order, when a song
 starts, the single live timer, and what `song_finished` amounts to.
 */
module Playback {

  import opened Wrappers
  import opened BotState
  import opened Transitions
  import opened Invariants
  import TrackPath

  /** The sink after the current track has stopped. */
  function Stopped(b: Bot): Bot {
    b.(sink := b.sink.(playing := false))
  }

  /**
   The paths that become current over `n` successive ends of playback, each
   followed by `play_next_song`.
   */
  function Upcoming(b: Bot, n: nat): seq<string>
    decreases n
  {
    if n == 0 then []
    else
      var a := Advance(Stopped(b)).state;
      (if a.current.Some? then [a.current.value] else []) + Upcoming(a, n - 1)
  }

  /** FIFO: the queued paths become current in exactly the order they were queued. */
  lemma {:induction false} FifoOrder(b: Bot, n: nat)
    requires b.sink.connected && |b.queue| == |b.names| && n <= |b.queue|
    ensures Upcoming(b, n) == b.queue[..n]
    decreases n
  {
    if n > 0 {
      var a := Advance(Stopped(b)).state;
      assert Starts(Stopped(b));
      assert a.current == Some(b.queue[0]) && a.queue == b.queue[1..];
      FifoOrder(a, n - 1);
      assert b.queue[..n] == [b.queue[0]] + b.queue[1..][..n - 1];
    }
  }

  /**
   `song_finished` on a file that exists is `play_next_song` after the
   sink stopped and the file was deleted.
   */
  lemma SongFinishedIsAdvance(b: Bot, path: string)
    requires path in b.files
    ensures SongFinished(b, path) == Advance(Stopped(b).(files := b.files - {path}))
  {
  }

  /** Once a song starts, exactly one timer is live: the freshly armed one. */
  lemma AdvanceArmsOneTimer(b: Bot)
    requires TimersWf(b) && Starts(b)
    ensures ArmedTimers(Advance(b).state.timers) == {|b.timers|}
    ensures Advance(b).state.timer == Some(|b.timers|)
  {
    assert ArmedTimers(b.timers) - HandleSet(b.timer) == {};
  }

  /** After `leave`, no timer is live any more. */
  lemma LeaveStopsTimer(b: Bot)
    requires TimersWf(b) && b.sink.connected
    ensures ArmedTimers(Leave(b).state.timers) == {}
  {
    assert ArmedTimers(b.timers) - HandleSet(b.timer) == {};
  }

  /**
   `play` from an idle bot starts the new song at once: it is current, both
   lists end up empty, only "Playing song" is sent (not "Added to queue"),
   and one fresh timer is the only live one.
   */
  lemma PlayStartsWhenIdle(b: Bot, room: ChannelId, f: Fetched)
    requires Inv(b) && !Truthy(b.current)
    requires b.sink.connected ==> b.sink.room == room
    ensures var r := Play(b, Some(room), Some(f));
      && r.state.current == Some(TrackPath.MakePath(f.videoId, f.suffix))
      && r.state.queue == [] && r.state.names == []
      && r.state.status == f.title
      && r.state.sink == Sink(true, true, room)
      && r.out == [NowPlaying(f.title)] && !r.raised
      && ArmedTimers(r.state.timers) == {r.state.timer.value}
  {
    var joined := if b.sink.connected then b
                  else b.(sink := Sink(true, false, room), channel := Some(room));
    var path := TrackPath.MakePath(f.videoId, f.suffix);
    var queued := joined.(queue := joined.queue + [path], names := joined.names + [f.title],
                          files := joined.files + {path});
    assert queued.queue == [path] && queued.names == [f.title] && Starts(queued);
    AdvanceArmsOneTimer(queued);
  }

  /**
   While a song is current, `play` only appends to both lists and announces
   the addition; a disconnected bot first rejoins the caller's channel, but
   still starts nothing.
   */
  lemma PlayWhileBusyQueues(b: Bot, room: ChannelId, f: Fetched)
    requires Truthy(b.current)
    requires b.sink.connected ==> b.sink.room == room
    ensures var r := Play(b, Some(room), Some(f));
      && r.state.queue == b.queue + [TrackPath.MakePath(f.videoId, f.suffix)]
      && r.state.names == b.names + [f.title]
      && r.state.current == b.current && r.state.timers == b.timers && r.state.timer == b.timer
      && r.state.sink == (if b.sink.connected then b.sink else Sink(true, false, room))
      && r.out == [AddedToQueue(f.title)] && !r.raised
  {
  }

  /**
   `leave` during a song keeps the global current song, so a `play` right
   after it rejoins, queues the new song and sends "Added to queue", but
   nothing plays and no timer is live. Only the `after` callback of the song
   `leave` stopped (`SongFinished`) starts the queued one.
   */
  lemma {:induction false} LeaveThenPlayOnlyQueues(b: Bot, room: ChannelId, f: Fetched)
    requires Inv(b) && Truthy(b.current) && b.sink.connected && b.sink.room == room
    ensures
      var s := Play(Leave(b).state, Some(room), Some(f));
      && s.state.current == b.current
      && s.state.queue == [TrackPath.MakePath(f.videoId, f.suffix)] && s.state.names == [f.title]
      && s.state.sink == Sink(true, false, room)
      && ArmedTimers(s.state.timers) == {}
      && s.out == [AddedToQueue(f.title)]
  {
    LeaveStopsTimer(b);
    PlayWhileBusyQueues(Leave(b).state, room, f);
  }

  /**
   Songs A, B, C requested in that order on an idle bot: A plays at once,
   then B and C follow in that order.
   */
  lemma ThreeSongsInOrder(b: Bot, room: ChannelId, fa: Fetched, fb: Fetched, fc: Fetched)
    requires Inv(b) && !Truthy(b.current)
    requires b.sink.connected ==> b.sink.room == room
    ensures
      var s1 := Play(b, Some(room), Some(fa)).state;
      var s2 := Play(s1, Some(room), Some(fb)).state;
      var s3 := Play(s2, Some(room), Some(fc)).state;
      && s3.current == Some(TrackPath.MakePath(fa.videoId, fa.suffix))
      && Upcoming(s3, 2) == [TrackPath.MakePath(fb.videoId, fb.suffix), TrackPath.MakePath(fc.videoId, fc.suffix)]
  {
    var pa := TrackPath.MakePath(fa.videoId, fa.suffix);
    var pb := TrackPath.MakePath(fb.videoId, fb.suffix);
    var pc := TrackPath.MakePath(fc.videoId, fc.suffix);
    PlayStartsWhenIdle(b, room, fa);
    var s1 := Play(b, Some(room), Some(fa)).state;
    assert Truthy(s1.current);
    PlayWhileBusyQueues(s1, room, fb);
    var s2 := Play(s1, Some(room), Some(fb)).state;
    PlayWhileBusyQueues(s2, room, fc);
    var s3 := Play(s2, Some(room), Some(fc)).state;
    assert s3.queue == [pb, pc] && |s3.names| == 2;
    FifoOrder(s3, 2);
  }

  /** With no live timer, no timer event can ever disconnect the bot. */
  lemma NoLiveTimerNoFiring(b: Bot, handle: nat)
    requires ArmedTimers(b.timers) == {}
    ensures TimerFires(b, handle).state == b && TimerFires(b, handle).out == []
  {
    if handle < |b.timers| {
      assert handle !in ArmedTimers(b.timers);
    }
  }

  /**
   A song that outlasts the inactivity delay: its timer fires while the song
   is current (and does nothing), the song ends with an empty queue, and the
   bot is left idle and connected with no live timer: no timer is live until
   another song starts, so while it stays idle nothing disconnects it for
   inactivity.
   */
  lemma IdleWithoutLiveTimer()
    ensures
      var f := Fetched("dQw4w9WgXcQ", "Song", "abcde");
      var path := TrackPath.MakePath(f.videoId, f.suffix);
      var s := Run(Initial({}), [PlayCmd(Some(1), Some(f)), Fire(0), Finished(path)]);
      && s.sink.connected && !Truthy(s.current) && s.status == Idle
      && ArmedTimers(s.timers) == {}
  {
    var f := Fetched("dQw4w9WgXcQ", "Song", "abcde");
    var path := TrackPath.MakePath(f.videoId, f.suffix);
    var s0 := Initial({});
    InitialInv({});
    PlayStartsWhenIdle(s0, 1, f);
    var s1 := Apply(s0, PlayCmd(Some(1), Some(f))).state;
    assert s1.timers == [Armed] && s1.current == Some(path);
    var s2 := Apply(s1, Fire(0)).state;
    assert s2.timers == [Fired] && s2 == s1.(timers := [Fired]);
    var s3 := Apply(s2, Finished(path)).state;
    assert s3.timers == [Fired];
    assert ArmedTimers(s3.timers) == {} by {
      forall i: nat | i < |s3.timers| ensures s3.timers[i] != Armed { }
    }
    assert Run(s0, [PlayCmd(Some(1), Some(f)), Fire(0), Finished(path)]) == s3 by {
      var es := [PlayCmd(Some(1), Some(f)), Fire(0), Finished(path)];
      assert es[1..] == [Fire(0), Finished(path)];
      assert es[1..][1..] == [Finished(path)];
      assert es[1..][1..][1..] == [];
      assert Run(s3, []) == s3;
      assert Run(s2, [Finished(path)]) == Run(s3, []);
      assert Run(s1, [Fire(0), Finished(path)]) == Run(s2, [Finished(path)]);
      assert Run(s0, es) == Run(s1, [Fire(0), Finished(path)]);
    }
  }
}
