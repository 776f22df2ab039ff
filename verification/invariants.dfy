/**
 What every reachable state of the bot satisfies, and that each command and
 callback keeps it: the two lists stay parallel, at most one timer is live
 and it is the `inactive_timer` handle, nothing is queued while no song is
 current or while disconnected, and the sink plays only while a song is current.
 */
module Invariants {

  import opened Wrappers
  import opened BotState
  import opened Transitions

  /** Every input the environment can deliver to the bot. */
  datatype Event =
    | PlayCmd(requester: Option<ChannelId>, fetched: Option<Fetched>)
    | SkipCmd
    | LeaveCmd
    | Finished(path: string)
    | Fire(handle: nat)

  function Apply(b: Bot, e: Event): Step {
    match e
    case PlayCmd(requester, fetched) => Play(b, requester, fetched)
    case SkipCmd => Skip(b)
    case LeaveCmd => Leave(b)
    case Finished(path) => SongFinished(b, path)
    case Fire(handle) => TimerFires(b, handle)
  }

  /** The state after delivering `events` in order. */
  function Run(b: Bot, events: seq<Event>): Bot
    decreases |events|
  {
    if events == [] then b else Run(Apply(b, events[0]).state, events[1..])
  }

  /** The `inactive_timer` handle is a real timer and no other timer is live. */
  predicate TimersWf(b: Bot) {
    && (b.timer.Some? ==> b.timer.value < |b.timers|)
    && ArmedTimers(b.timers) <= HandleSet(b.timer)
  }

  predicate Inv(b: Bot) {
    && |b.queue| == |b.names|
    && TimersWf(b)
    && (!Truthy(b.current) ==> b.queue == [])
    && (!b.sink.connected ==> b.queue == [] && !b.sink.playing)
    && (b.sink.playing ==> Truthy(b.current))
    && (forall i :: 0 <= i < |b.queue| ==> b.queue[i] != [])
  }

  /** At most one inactivity timer is live, and a live one is the global handle. */
  lemma AtMostOneTimer(b: Bot)
    requires TimersWf(b)
    ensures |ArmedTimers(b.timers)| <= 1
    ensures forall i :: i in ArmedTimers(b.timers) ==> b.timer == Some(i)
  {
    assert |HandleSet(b.timer)| <= 1;
    SubsetCard(ArmedTimers(b.timers), HandleSet(b.timer));
  }

  lemma {:induction false} SubsetCard(a: set<nat>, c: set<nat>)
    requires a <= c
    ensures |a| <= |c|
    decreases c
  {
    if a != {} {
      var x :| x in a;
      SubsetCard(a - {x}, c - {x});
    }
  }

  lemma InitialInv(files: set<string>)
    ensures Inv(Initial(files))
  {
  }

  /**
   `play_next_song` keeps the invariant when the sink is not playing, which
   holds at both call sites; and it then never raises.
   */
  lemma AdvanceInv(b: Bot)
    requires Inv(b) && !b.sink.playing
    ensures Inv(Advance(b).state) && !Advance(b).raised
  {
  }

  /** The two lists stay parallel across every command and callback, on their own. */
  lemma ParallelPreserved(b: Bot, e: Event)
    requires |b.queue| == |b.names|
    ensures |Apply(b, e).state.queue| == |Apply(b, e).state.names|
  {
  }

  lemma PlayInv(b: Bot, requester: Option<ChannelId>, fetched: Option<Fetched>)
    requires Inv(b)
    ensures Inv(Play(b, requester, fetched).state)
  {
  }

  lemma SkipInv(b: Bot)
    requires Inv(b)
    ensures Inv(Skip(b).state)
  {
  }

  lemma LeaveInv(b: Bot)
    requires Inv(b)
    ensures Inv(Leave(b).state)
  {
  }

  lemma SongFinishedInv(b: Bot, path: string)
    requires Inv(b)
    ensures Inv(SongFinished(b, path).state) && (path in b.files ==> !SongFinished(b, path).raised)
  {
    var stopped := b.(sink := b.sink.(playing := false));
    if path in b.files {
      AdvanceInv(stopped.(files := b.files - {path}));
    }
  }

  lemma TimerFiresInv(b: Bot, handle: nat)
    requires Inv(b)
    ensures Inv(TimerFires(b, handle).state)
  {
  }

  lemma ApplyInv(b: Bot, e: Event)
    requires Inv(b)
    ensures Inv(Apply(b, e).state)
  {
    match e {
      case PlayCmd(requester, fetched) => PlayInv(b, requester, fetched);
      case SkipCmd => SkipInv(b);
      case LeaveCmd => LeaveInv(b);
      case Finished(path) => SongFinishedInv(b, path);
      case Fire(handle) => TimerFiresInv(b, handle);
    }
  }

  /** Every state reachable from start-up satisfies the invariant. */
  lemma {:induction false} RunInv(b: Bot, events: seq<Event>)
    requires Inv(b)
    ensures Inv(Run(b, events))
    decreases |events|
  {
    if events != [] {
      ApplyInv(b, events[0]);
      RunInv(Apply(b, events[0]).state, events[1..]);
    }
  }

  /** In every reachable state at most one inactivity timer is live. */
  lemma ReachableAtMostOneTimer(files: set<string>, events: seq<Event>)
    ensures |ArmedTimers(Run(Initial(files), events).timers)| <= 1
  {
    InitialInv(files);
    RunInv(Initial(files), events);
    AtMostOneTimer(Run(Initial(files), events));
  }
}
