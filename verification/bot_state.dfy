/**
 The module-level globals of the bot, gathered into one immutable record.
 There is a single record for the whole process, not one per guild: the
 source keeps its queue, titles, current song and timer in plain globals.
 */
module BotState {

  import opened Wrappers

  /** An abstract voice channel identity. */
  type ChannelId = nat

  /**
   The voice connection as the core sees it: whether one exists and is
   connected, whether it is playing audio, and which channel it is in.
   */
  datatype Sink = Sink(connected: bool, playing: bool, room: ChannelId)

  /**
   One handle returned by `call_later`: still due to fire, cancelled, or
   already fired (its callback ran).
   */
  datatype TimerState = Armed | Cancelled | Fired

  /** Text chat replies, recorded as output events. */
  datatype Message =
    | ConnectedElsewhere
    | AddedToQueue(title: string)
    | NowPlaying(title: string)
    | Skipped
    | Disconnected
    | DisconnectedIdle

  /**
   - `queue`, `names`: the `queue` and `sname` lists (file paths, titles);
   - `current`: `current_song`;
   - `timer`: the `inactive_timer` global, an index into `timers`, the
     history of every timer ever armed;
   - `status`: `uf`, the presence text;
   - `channel`: the `channel` global;
   - `files`: the files present in the music directory.
   */
  datatype Bot = Bot(
    queue: seq<string>,
    names: seq<string>,
    current: Option<string>,
    timer: Option<nat>,
    timers: seq<TimerState>,
    status: string,
    channel: Option<ChannelId>,
    sink: Sink,
    files: set<string>)

  /** The presence text when nothing plays. */
  const Idle: string := "idle"

  /**
   The outcome of running one handler: the state it leaves behind, the chat
   messages it sent, and whether it ended in an exception (caught or not).
   */
  datatype Step = Step(state: Bot, out: seq<Message>, raised: bool)

  /** The globals at import time; `files` is whatever `music/` already holds. */
  function Initial(files: set<string>): (b: Bot)
    ensures b.queue == [] && b.names == [] && b.current == None && b.timer == None
    ensures b.status == Idle && !b.sink.connected && b.files == files
  {
    Bot([], [], None, None, [], Idle, None, Sink(false, false, 0), files)
  }

  /** Python truthiness of `current_song`: set and not the empty string. */
  predicate Truthy(current: Option<string>) {
    current.Some? && current.value != []
  }

  /** Indices of the timers that are still due to fire. */
  function ArmedTimers(timers: seq<TimerState>): set<nat> {
    set i: nat | i < |timers| && timers[i] == Armed
  }

  function HandleSet(handle: Option<nat>): set<nat> {
    if handle.Some? then {handle.value} else {}
  }

  /**
   `if inactive_timer: inactive_timer.cancel()`: a live handle stops being
   due; a handle that already fired or was cancelled stays as it is.
   */
  function CancelTimer(timers: seq<TimerState>, handle: Option<nat>): (r: seq<TimerState>)
    ensures |r| == |timers|
    ensures ArmedTimers(r) == ArmedTimers(timers) - HandleSet(handle)
    ensures forall i :: 0 <= i < |r| && r[i] != timers[i] ==> handle == Some(i) && r[i] == Cancelled
  {
    if handle.Some? && handle.value < |timers| && timers[handle.value] == Armed
    then timers[handle.value := Cancelled]
    else timers
  }

  /**
   Lines 160-162: cancel the previous handle, then arm one new timer and
   make it the `inactive_timer` global.
   */
  function Rearm(b: Bot): (r: Bot)
    ensures r.timer == Some(|b.timers|) && |r.timers| == |b.timers| + 1
    ensures ArmedTimers(r.timers) == ArmedTimers(b.timers) - HandleSet(b.timer) + {|b.timers|}
    ensures r.queue == b.queue && r.names == b.names && r.current == b.current
    ensures r.status == b.status && r.sink == b.sink && r.files == b.files && r.channel == b.channel
  {
    var t := CancelTimer(b.timers, b.timer) + [Armed];
    assert forall i :: 0 <= i < |b.timers| ==> t[i] == CancelTimer(b.timers, b.timer)[i];
    b.(timers := t, timer := Some(|b.timers|))
  }
}
