/** The health monitor (health.go): a state machine, its subscribers' channels and
    the probe loop, under every interleaving of lock and channel operations. */
module Health {
  import opened Options

  /** `Other` is any string that is not one of the three known sources. */
  datatype Source = Live | L1Cache | L2Cache | Other(name: string)

  const BUFFER_SIZE := 8

  /** The part of a snapshot that changes only at a transition. The time comes from
      a clock read before the lock, so later marks may carry earlier times. */
  datatype Mark = Mark(state: Source, since: int)

  /** One subscriber's channel. `seed` is where in the history its stream starts;
      `received` is what its handler has taken out. */
  datatype Channel = Channel(buffer: seq<Mark>, closed: bool, received: seq<Mark>, seed: int, rejected: bool)

  datatype ClosePhase = Open | DoneClosed | Waited | Returned

  datatype ProbePc = Off | Spawned | Top | Ticked | Passed | Probing | Exited

  datatype WatcherPc = NoWatcher | Watching | WatcherGone

  datatype State = State(
    state: Source, since: int, lastProbed: Option<int>,
    chans: map<nat, Channel>, members: set<nat>,
    history: seq<Mark>, done: bool, phase: ClosePhase,
    started: bool, probe: ProbePc, watcher: WatcherPc, cancelled: bool, wg: int, probes: nat,
    panicked: bool) // set by a send on, or a second close of, a closed channel

  function Init(now: int): State {
    State(Live, now, None, map[], {}, [Mark(Live, now)], false, Open, false, Off, NoWatcher, false, 0, 0, false)
  }

  datatype Action =
    | Observe(src: Source, now: int, fromProbe: bool)
    | ProbeAttempt(now: int)
    | Subscribe(id: nat)
    | Drop(id: nat)
    | Take(id: nat)
    | CloseDone | CloseWait | CloseDrain
    | Start(interval: int)
    | AddWatcher | Tick | Recheck | RunProbe | ProbeEnds | LoopExit | WatcherExit

  predicate Enabled(s: State, a: Action) {
    match a
    case Observe(_, _, _) => true
    case ProbeAttempt(_) => true
    case Subscribe(id) => id !in s.chans
    case Drop(id) => id in s.chans
    case Take(id) => id in s.chans && s.chans[id].buffer != []
    case CloseDone => s.phase.Open?
    case CloseWait => s.phase.DoneClosed? && s.wg == 0
    case CloseDrain => s.phase.Waited?
    case Start(_) => !s.started
    case AddWatcher => s.probe.Spawned?
    case Tick => s.probe.Top?
    case Recheck => s.probe.Ticked?
    case RunProbe => s.probe.Passed?
    case ProbeEnds => s.probe.Probing?
    case LoopExit => s.probe.Top? && s.done
    case WatcherExit => s.watcher.Watching? && (s.done || s.cancelled)
  }

  // ----- broadcasting -----

  function Deliver(c: Channel, m: Mark): Channel {
    if |c.buffer| < BUFFER_SIZE then c.(buffer := c.buffer + [m]) else c.(closed := true)
  }

  function Overflowed(chans: map<nat, Channel>, members: set<nat>): set<nat> {
    set id | id in members && id in chans && |chans[id].buffer| >= BUFFER_SIZE
  }

  function BroadcastAll(chans: map<nat, Channel>, members: set<nat>, m: Mark): map<nat, Channel> {
    map id | id in chans :: if id in members then Deliver(chans[id], m) else chans[id]
  }

  function CloseAll(chans: map<nat, Channel>, members: set<nat>): map<nat, Channel> {
    map id | id in chans :: if id in members then chans[id].(closed := true) else chans[id]
  }

  predicate SomeClosed(s: State, ids: set<nat>) {
    exists id :: id in ids && id in s.chans && s.chans[id].closed
  }

  function Transition(s: State, src: Source, now: int): State {
    var m := Mark(src, now);
    s.(state := src, since := now, history := s.history + [m],
       chans := BroadcastAll(s.chans, s.members, m),
       members := s.members - Overflowed(s.chans, s.members),
       panicked := s.panicked || SomeClosed(s, s.members))
  }

  function Observed(s: State, src: Source, now: int, fromProbe: bool): State {
    if src.Other? then s
    else
      var s1 := if fromProbe then s.(lastProbed := Some(now)) else s;
      if src == s.state then s1 else Transition(s1, src, now)
  }

  function SubscribeAs(s: State, id: nat): State {
    if s.done then s.(chans := s.chans[id := Channel([], true, [], 0, true)])
    else
      s.(chans := s.chans[id := Channel([Mark(s.state, s.since)], false, [], |s.history| - 1, false)],
         members := s.members + {id})
  }

  function Dropped(s: State, id: nat): State
    requires id in s.chans
  {
    if id !in s.members then s
    else
      s.(members := s.members - {id}, chans := s.chans[id := s.chans[id].(closed := true)],
         panicked := s.panicked || s.chans[id].closed)
  }

  function TakeFrom(s: State, id: nat): State
    requires id in s.chans && s.chans[id].buffer != []
  {
    var c := s.chans[id];
    s.(chans := s.chans[id := c.(buffer := c.buffer[1..], received := c.received + [c.buffer[0]])])
  }

  function Step(s: State, a: Action): State
    requires Enabled(s, a)
  {
    match a
    case Observe(src, now, fromProbe) => Observed(s, src, now, fromProbe)
    case ProbeAttempt(now) => s.(lastProbed := Some(now))
    case Subscribe(id) => SubscribeAs(s, id)
    case Drop(id) => Dropped(s, id)
    case Take(id) => TakeFrom(s, id)
    case CloseDone => s.(done := true, phase := DoneClosed)
    case CloseWait => s.(phase := Waited)
    case CloseDrain =>
      s.(members := {}, chans := CloseAll(s.chans, s.members),
         panicked := s.panicked || SomeClosed(s, s.members), phase := Returned)
    case Start(interval) =>
      if interval <= 0 then s.(started := true) else s.(started := true, wg := s.wg + 1, probe := Spawned)
    case AddWatcher => s.(wg := s.wg + 1, watcher := Watching, probe := Top)
    case Tick => s.(probe := Ticked)
    case Recheck => if s.done then s.(probe := Exited, wg := s.wg - 1, cancelled := true) else s.(probe := Passed)
    case RunProbe => s.(probe := Probing, probes := s.probes + 1)
    case ProbeEnds => s.(probe := Top)
    case LoopExit => s.(probe := Exited, wg := s.wg - 1, cancelled := true)
    case WatcherExit => s.(watcher := WatcherGone, wg := s.wg - 1)
  }

  // ----- the invariant -----

  /** A stream is a contiguous piece of the history; a subscriber still in the set
      is up to date, and being in the set is having an open channel. */
  predicate StreamOk(history: seq<Mark>, c: Channel, member: bool) {
    member == !c.closed && |c.buffer| <= BUFFER_SIZE &&
    if c.rejected then c.closed && c.buffer == [] && c.received == []
    else
      var n := |c.received| + |c.buffer|;
      n >= 1 && c.seed >= 0 && c.seed + n <= |history| && c.received + c.buffer == history[c.seed..c.seed + n] &&
      (member ==> c.seed + n == |history|)
  }

  ghost predicate StreamsOk(s: State) {
    s.members <= s.chans.Keys && forall id :: id in s.chans ==> StreamOk(s.history, s.chans[id], id in s.members)
  }

  ghost predicate HistoryOk(s: State) {
    |s.history| > 0 && s.history[|s.history| - 1] == Mark(s.state, s.since) &&
    forall i :: 0 < i < |s.history| ==> s.history[i].state != s.history[i - 1].state
  }

  predicate LifecycleOk(s: State) {
    && s.wg == (if s.probe.Off? || s.probe.Exited? then 0 else 1) + (if s.watcher.Watching? then 1 else 0)
    && (s.probe.Off? || s.started)
    && (s.probe.Off? || s.probe.Spawned? ==> s.watcher.NoWatcher?)
    && (s.done <==> !s.phase.Open?)
    && (s.phase.Waited? || s.phase.Returned? ==> !s.probe.Passed? && !s.probe.Probing?)
    && (s.phase.Returned? ==> s.members == {})
  }

  ghost predicate Inv(s: State) {
    StreamsOk(s) && HistoryOk(s) && LifecycleOk(s) && !s.panicked
  }

  lemma ExtendStream(history: seq<Mark>, c: Channel, m: Mark)
    requires StreamOk(history, c, true)
    ensures StreamOk(history + [m], Deliver(c, m), |c.buffer| < BUFFER_SIZE)
  {
    var n := |c.received| + |c.buffer|;
    assert (history + [m])[c.seed..c.seed + n] == history[c.seed..c.seed + n];
    if |c.buffer| < BUFFER_SIZE {
      assert c.received + (c.buffer + [m]) == (c.received + c.buffer) + [m];
      assert (history + [m])[c.seed..c.seed + n + 1] == history[c.seed..c.seed + n] + [m];
    }
  }

  lemma OldStream(history: seq<Mark>, c: Channel, m: Mark)
    requires StreamOk(history, c, false)
    ensures StreamOk(history + [m], c, false)
  {
    if !c.rejected {
      var n := |c.received| + |c.buffer|;
      assert (history + [m])[c.seed..c.seed + n] == history[c.seed..c.seed + n];
    }
  }

  lemma TransitionKeepsInv(s: State, src: Source, now: int)
    requires Inv(s) && src != s.state
    ensures Inv(Transition(s, src, now))
  {
    hide StreamOk, Deliver;
    var t, m := Transition(s, src, now), Mark(src, now);
    forall id | id in t.chans ensures StreamOk(t.history, t.chans[id], id in t.members) {
      assert StreamOk(s.history, s.chans[id], id in s.members);
      if id in s.members {
        ExtendStream(s.history, s.chans[id], m);
      } else {
        OldStream(s.history, s.chans[id], m);
      }
    }
    MembersAreOpen(s);
  }

  lemma MembersAreOpen(s: State)
    requires StreamsOk(s)
    ensures !SomeClosed(s, s.members)
  {
  }

  lemma TakeKeepsStream(history: seq<Mark>, c: Channel, member: bool)
    requires StreamOk(history, c, member) && c.buffer != []
    ensures StreamOk(history, c.(buffer := c.buffer[1..], received := c.received + [c.buffer[0]]), member)
  {
    assert c.received + [c.buffer[0]] + c.buffer[1..] == c.received + c.buffer;
  }

  lemma CloseKeepsStream(history: seq<Mark>, c: Channel)
    requires StreamOk(history, c, true)
    ensures StreamOk(history, c.(closed := true), false)
  {
  }

  lemma SeedStream(history: seq<Mark>)
    requires history != []
    ensures StreamOk(history, Channel([history[|history| - 1]], false, [], |history| - 1, false), true)
  {
    assert history[|history| - 1..|history|] == [history[|history| - 1]];
  }

  lemma SubscribeKeepsStreams(s: State, id: nat)
    requires Inv(s) && id !in s.chans
    ensures StreamsOk(SubscribeAs(s, id))
  {
    hide StreamOk;
    SeedStream(s.history);
    RejectedStream(s.history);
  }

  lemma DropKeepsStreams(s: State, id: nat)
    requires Inv(s) && id in s.chans
    ensures StreamsOk(Dropped(s, id)) && !Dropped(s, id).panicked
  {
    if id in s.members {
      assert StreamOk(s.history, s.chans[id], true);
      CloseKeepsStream(s.history, s.chans[id]);
      hide StreamOk;
      assert StreamsOk(Dropped(s, id));
    }
  }

  lemma TakeKeepsStreams(s: State, id: nat)
    requires Inv(s) && id in s.chans && s.chans[id].buffer != []
    ensures StreamsOk(TakeFrom(s, id))
  {
    hide StreamOk;
    TakeKeepsStream(s.history, s.chans[id], id in s.members);
  }

  lemma CloseAllKeepsStreams(s: State)
    requires Inv(s)
    ensures StreamsOk(s.(members := {}, chans := CloseAll(s.chans, s.members)))
  {
    hide StreamOk;
    var t := s.(members := {}, chans := CloseAll(s.chans, s.members));
    forall id | id in t.chans ensures StreamOk(t.history, t.chans[id], id in t.members) {
      assert StreamOk(s.history, s.chans[id], id in s.members);
      if id in s.members { CloseKeepsStream(s.history, s.chans[id]); }
    }
  }

  lemma StepKeepsStreams(s: State, a: Action)
    requires Inv(s) && Enabled(s, a) && !a.Observe?
    ensures StreamsOk(Step(s, a)) && !Step(s, a).panicked
  {
    hide StreamOk, SubscribeAs, Dropped, TakeFrom, CloseAll, SomeClosed;
    MembersAreOpen(s);
    match a {
      case Subscribe(id) => SubscribeKeepsStreams(s, id); SubscribeCannotPanic(s, id);
      case Drop(id) => DropKeepsStreams(s, id);
      case Take(id) => TakeKeepsStreams(s, id); TakeCannotPanic(s, id);
      case CloseDrain => CloseAllKeepsStreams(s);
      case _ =>
    }
  }

  lemma SubscribeCannotPanic(s: State, id: nat)
    requires Inv(s)
    ensures !SubscribeAs(s, id).panicked
  {
  }

  lemma TakeCannotPanic(s: State, id: nat)
    requires Inv(s) && id in s.chans && s.chans[id].buffer != []
    ensures !TakeFrom(s, id).panicked
  {
  }

  lemma RejectedStream(history: seq<Mark>)
    ensures StreamOk(history, Channel([], true, [], 0, true), false)
  {
  }

  lemma StepKeepsLifecycle(s: State, a: Action)
    requires Inv(s) && Enabled(s, a) && !a.Observe?
    ensures LifecycleOk(Step(s, a))
  {
    if a.Subscribe? || a.Drop? || a.Take? {
      hide StreamsOk, HistoryOk;
    } else {
      hide StreamsOk, HistoryOk, CloseAll, SomeClosed, SubscribeAs, Dropped, TakeFrom, Observed;
    }
  }

  lemma StepKeepsInv(s: State, a: Action)
    requires Inv(s) && Enabled(s, a)
    ensures Inv(Step(s, a))
  {
    if a.Observe? {
      ObserveKeepsInv(s, a.src, a.now, a.fromProbe);
    } else {
      StepKeepsLifecycle(s, a);
      StepKeepsStreams(s, a);
      hide Step, StreamsOk, HistoryOk, LifecycleOk;
    }
  }

  lemma ObserveKeepsInv(s: State, src: Source, now: int, fromProbe: bool)
    requires Inv(s)
    ensures Inv(Observed(s, src, now, fromProbe))
  {
    var s1 := if fromProbe then s.(lastProbed := Some(now)) else s;
    assert Inv(s1);
    if !src.Other? && src != s.state {
      TransitionKeepsInv(s1, src, now);
    }
  }

  // ----- runs -----

  /** The actions can be taken one after the other. */
  predicate Runs(s: State, acts: seq<Action>)
    decreases |acts|
  {
    acts == [] || (Enabled(s, acts[0]) && Runs(Step(s, acts[0]), acts[1..]))
  }

  function After(s: State, acts: seq<Action>): State
    requires Runs(s, acts)
    decreases |acts|
  {
    if acts == [] then s else After(Step(s, acts[0]), acts[1..])
  }

  lemma {:induction false} RunKeepsInv(s: State, acts: seq<Action>)
    requires Inv(s) && Runs(s, acts)
    ensures Inv(After(s, acts))
    decreases |acts|
  {
    if acts != [] {
      hide Inv;
      StepKeepsInv(s, acts[0]);
      RunKeepsInv(Step(s, acts[0]), acts[1..]);
    }
  }

  /** In every run each subscriber's received and buffered states are a contiguous
      piece of the transition history starting at its seed, up to the present while
      it is subscribed; at most eight are buffered; no send or close hits a closed
      channel. */
  lemma StreamsAreGapFree(now: int, acts: seq<Action>, id: nat)
    requires Runs(Init(now), acts)
    requires id in After(Init(now), acts).chans
    ensures var s := After(Init(now), acts);
      var c := s.chans[id];
      var stream := c.received + c.buffer;
      !s.panicked && |c.buffer| <= BUFFER_SIZE &&
      (c.rejected ==> stream == []) &&
      (!c.rejected ==> 0 <= c.seed && c.seed + |stream| <= |s.history| && stream == s.history[c.seed..c.seed + |stream|]) &&
      (id in s.members ==> !c.closed && c.seed + |stream| == |s.history|)
    ensures var s := After(Init(now), acts);
      var stream := s.chans[id].received + s.chans[id].buffer;
      forall i :: 0 < i < |stream| ==> stream[i].state != stream[i - 1].state
  {
    RunKeepsInv(Init(now), acts);
    var s := After(Init(now), acts);
    var c := s.chans[id];
    assert StreamOk(s.history, c, id in s.members);
    var stream := c.received + c.buffer;
    if !c.rejected {
      forall i | 0 < i < |stream| ensures stream[i].state != stream[i - 1].state {
        assert stream[i] == s.history[c.seed + i] && stream[i - 1] == s.history[c.seed + i - 1];
      }
    }
  }

  lemma {:induction false} RunsSplit(s: State, a: seq<Action>, b: seq<Action>)
    requires Runs(s, a + b)
    ensures Runs(s, a) && Runs(After(s, a), b) && After(s, a + b) == After(After(s, a), b)
    decreases |a|
  {
    if a == [] {
      assert a + b == b;
    } else {
      assert (a + b)[1..] == a[1..] + b;
      RunsSplit(Step(s, a[0]), a[1..], b);
    }
  }

  lemma {:induction false} QuietAfterReturn(s: State, acts: seq<Action>)
    requires Inv(s) && Runs(s, acts) && s.phase.Returned?
    ensures var t := After(s, acts); t.phase.Returned? && t.members == {} && t.probes == s.probes
    decreases |acts|
  {
    if acts != [] {
      StepKeepsInv(s, acts[0]);
      var t := Step(s, acts[0]);
      assert t.phase.Returned? && t.probes == s.probes;
      QuietAfterReturn(t, acts[1..]);
    }
  }

  /** Once Close has returned the subscriber set stays empty and no probe starts. */
  lemma QuietAfterClose(now: int, before: seq<Action>, later: seq<Action>)
    requires Runs(Init(now), before + later)
    requires Runs(Init(now), before) && After(Init(now), before).phase.Returned?
    ensures var s, t := After(Init(now), before), After(Init(now), before + later);
      s.members == {} && t.members == {} && t.probes == s.probes
  {
    RunsSplit(Init(now), before, later);
    RunKeepsInv(Init(now), before);
    QuietAfterReturn(After(Init(now), before), later);
  }

  /** A stream that has ended: its channel closed, its contents fixed. */
  predicate Ended(s: State, id: nat, stream: seq<Mark>) {
    id in s.chans && s.chans[id].closed && s.chans[id].received + s.chans[id].buffer == stream
  }

  lemma ObserveLeaves(s: State, src: Source, now: int, fromProbe: bool, id: nat)
    requires s.members <= s.chans.Keys && id in s.chans && id !in s.members
    ensures var t := Observed(s, src, now, fromProbe); id in t.chans && t.chans[id] == s.chans[id]
  {
  }

  lemma TakeLeaves(s: State, other: nat, id: nat, stream: seq<Mark>)
    requires other in s.chans && s.chans[other].buffer != [] && Ended(s, id, stream)
    ensures Ended(TakeFrom(s, other), id, stream)
  {
    if other == id {
      var c := s.chans[id];
      assert c.received + [c.buffer[0]] + c.buffer[1..] == c.received + c.buffer;
    }
  }

  lemma ClosedIsNotMember(s: State, id: nat)
    requires StreamsOk(s) && id in s.chans && s.chans[id].closed
    ensures id !in s.members
  {
    assert StreamOk(s.history, s.chans[id], id in s.members);
  }

  lemma EndedStaysEnded(s: State, a: Action, id: nat, stream: seq<Mark>)
    requires Inv(s) && Enabled(s, a) && Ended(s, id, stream)
    ensures Ended(Step(s, a), id, stream)
  {
    ClosedIsNotMember(s, id);
    hide StreamsOk, HistoryOk, Observed, CloseAll, TakeFrom, SomeClosed;
    match a {
      case Observe(src, now, fromProbe) => ObserveLeaves(s, src, now, fromProbe, id);
      case Take(other) => TakeLeaves(s, other, id, stream);
      case CloseDrain =>
      case _ =>
    }
  }

  /** A stream whose channel is closed never changes again, except that what is
      buffered may still be taken. */
  lemma {:induction false} ClosedStreamsAreFinal(s: State, acts: seq<Action>, id: nat, stream: seq<Mark>)
    requires Inv(s) && Runs(s, acts) && Ended(s, id, stream)
    ensures Ended(After(s, acts), id, stream)
    decreases |acts|
  {
    if acts != [] {
      hide Ended;
      StepKeepsInv(s, acts[0]);
      EndedStaysEnded(s, acts[0], id, stream);
      ClosedStreamsAreFinal(Step(s, acts[0]), acts[1..], id, stream);
    }
  }

  // ----- the object -----

  predicate Known(src: Source) { src == Live || src == L1Cache || src == L2Cache }

  /** What a member's channel is after a transition: with fewer than eight marks waiting
      it gets the new one as the last, otherwise it is closed as it is. */
  predicate Heard(c: Channel, c': Channel, m: Mark, member: bool) {
    if |c.buffer| < 8 then member && c' == c.(buffer := c.buffer + [m]) && !c'.closed
    else !member && c' == c.(closed := true)
  }

  lemma ObservedIs(s: State, src: Source, now: int, fromProbe: bool)
    requires Inv(s)
    ensures var s' := Observed(s, src, now, fromProbe); !Known(src) ==> s' == s
    ensures var s' := Observed(s, src, now, fromProbe);
      Known(src) ==> s'.state == src && s'.lastProbed == (if fromProbe then Some(now) else s.lastProbed)
    ensures var s' := Observed(s, src, now, fromProbe);
      Known(src) && src == s.state ==>
        s'.history == s.history && s'.since == s.since && s'.chans == s.chans && s'.members == s.members
    ensures var s' := Observed(s, src, now, fromProbe);
      Known(src) && src != s.state ==>
        s'.history == s.history + [Mark(src, now)] && s'.since == now && s'.chans.Keys == s.chans.Keys && s'.members <= s.members &&
        (forall id :: id in s.members ==> Heard(s.chans[id], s'.chans[id], Mark(src, now), id in s'.members)) &&
        (forall id :: id in s.chans && id !in s.members ==> s'.chans[id] == s.chans[id])
  {
    if Known(src) && src != s.state { TransitionIs(if fromProbe then s.(lastProbed := Some(now)) else s, src, now); }
  }

  lemma TransitionIs(s: State, src: Source, now: int)
    requires StreamsOk(s)
    ensures var s' := Transition(s, src, now);
      s'.chans.Keys == s.chans.Keys && s'.members <= s.members &&
      (forall id :: id in s.members ==> Heard(s.chans[id], s'.chans[id], Mark(src, now), id in s'.members)) &&
      (forall id :: id in s.chans && id !in s.members ==> s'.chans[id] == s.chans[id])
  {
    forall id | id in s.members
      ensures Heard(s.chans[id], Transition(s, src, now).chans[id], Mark(src, now), id in Transition(s, src, now).members)
    {
      assert StreamOk(s.history, s.chans[id], true);
    }
  }

  /** The monitor's fields under its mutex; each method is one critical section.
      The lifecycle fields it does not touch come from `base`. */
  class HealthMonitor {
    var state: Source
    var since: int
    var lastProbed: Option<int>
    var chans: map<nat, Channel>
    var subscribers: set<nat>
    var done: bool
    var history: seq<Mark> // all transitions so far; the source keeps only the last

    ghost function View(base: State): State
      reads this
    {
      base.(state := state, since := since, lastProbed := lastProbed, chans := chans,
            members := subscribers, history := history, done := done)
    }

    constructor (now: int)
      ensures View(Init(now)) == Init(now)
    {
      state, since, lastProbed, chans, subscribers, done := Live, now, None, map[], {}, false;
      history := [Mark(Live, now)];
    }

    /** The broadcast: a send that does not block to every subscriber, then the
        overflowed ones are dropped. */
    method BroadcastLocked(m: Mark)
      requires subscribers <= chans.Keys
      modifies this`chans, this`subscribers
      ensures chans == BroadcastAll(old(chans), old(subscribers), m)
      ensures subscribers == old(subscribers) - Overflowed(old(chans), old(subscribers))
    {
      ghost var was, subs := chans, subscribers;
      var toDrop := SendAll(m);
      var left := toDrop;
      while left != {}
        invariant left <= toDrop
        invariant subscribers == subs - (toDrop - left)
        invariant chans.Keys == was.Keys
        invariant forall id :: id in was ==>
          chans[id] == if id in toDrop - left || (id in subs && id !in toDrop) then Deliver(was[id], m) else was[id]
        decreases left
      {
        var id :| id in left;
        subscribers := subscribers - {id};
        chans := chans[id := chans[id].(closed := true)];
        left := left - {id};
      }
    }

    method SendAll(m: Mark) returns (toDrop: set<nat>)
      requires subscribers <= chans.Keys
      modifies this`chans
      ensures toDrop == Overflowed(old(chans), subscribers)
      ensures chans.Keys == old(chans).Keys
      ensures forall id :: id in chans ==>
        chans[id] == if id in subscribers && id !in toDrop then Deliver(old(chans)[id], m) else old(chans)[id]
    {
      ghost var was := chans;
      toDrop := {};
      var left := subscribers;
      while left != {}
        invariant left <= subscribers && chans.Keys == was.Keys
        invariant toDrop == set id | id in subscribers - left && |was[id].buffer| >= BUFFER_SIZE
        invariant forall id :: id in was ==>
          chans[id] == if id in subscribers - left && id !in toDrop then Deliver(was[id], m) else was[id]
        decreases left
      {
        var id :| id in left;
        if |chans[id].buffer| < BUFFER_SIZE {
          chans := chans[id := chans[id].(buffer := chans[id].buffer + [m])];
        } else {
          toDrop := toDrop + {id};
        }
        left := left - {id};
      }
    }

    method ApplyObservation(src: Source, now: int, fromProbe: bool, ghost base: State)
      requires Inv(View(base))
      modifies this`state, this`since, this`lastProbed, this`chans, this`subscribers, this`history
      ensures View(base) == Observed(old(View(base)), src, now, fromProbe)
      ensures !Known(src) ==> View(base) == old(View(base))
      ensures Known(src) ==>
        state == src && lastProbed == (if fromProbe then Some(now) else old(lastProbed)) &&
        history == (if old(state) == src then old(history) else old(history) + [Mark(src, now)])
      ensures Known(src) && src != old(state) ==>
        since == now && forall id :: id in old(subscribers) ==>
          id in chans && id in old(chans) && Heard(old(chans)[id], chans[id], Mark(src, now), id in subscribers)
    {
      ObservedIs(View(base), src, now, fromProbe);
      ApplyLocked(src, now, fromProbe, base);
      hide Observed, Inv, Heard;
    }

    /** The section under the lock. */
    method ApplyLocked(src: Source, now: int, fromProbe: bool, ghost base: State)
      requires Inv(View(base))
      modifies this`state, this`since, this`lastProbed, this`chans, this`subscribers, this`history
      ensures View(base) == Observed(old(View(base)), src, now, fromProbe)
    {
      MembersAreOpen(View(base));
      if src.Other? { return; }
      var transitioned := src != state;
      if transitioned {
        state, since := src, now;
        history := history + [Mark(src, now)];
      }
      if fromProbe { lastProbed := Some(now); }
      if !transitioned { return; }
      BroadcastLocked(Mark(state, since));
    }

    method Subscribe(id: nat, ghost base: State)
      requires Inv(View(base)) && id !in chans
      modifies this`chans, this`subscribers
      ensures View(base) == SubscribeAs(old(View(base)), id)
    {
      if done {
        chans := chans[id := Channel([], true, [], 0, true)];
        return;
      }
      subscribers := subscribers + {id};
      chans := chans[id := Channel([Mark(state, since)], false, [], |history| - 1, false)];
    }

    method DropSubscriber(id: nat, ghost base: State)
      requires Inv(View(base)) && id in chans
      modifies this`chans, this`subscribers
      ensures View(base) == Dropped(old(View(base)), id)
    {
      if id !in subscribers { return; }
      subscribers := subscribers - {id};
      chans := chans[id := chans[id].(closed := true)];
    }

    /** The last part of Close, under the mutex. */
    method CloseSubscribers(ghost base: State)
      requires Inv(View(base))
      modifies this`chans, this`subscribers
      ensures subscribers == {} && chans == CloseAll(old(chans), old(subscribers))
      ensures Inv(View(base))
    {
      CloseAllKeepsStreams(View(base));
      CloseLoop();
      assert StreamsOk(View(base));
    }

    method CloseLoop()
      requires subscribers <= chans.Keys
      modifies this`chans, this`subscribers
      ensures subscribers == {} && chans == CloseAll(old(chans), old(subscribers))
    {
      ghost var was := chans;
      var subs := subscribers;
      var left := subs;
      while left != {}
        invariant left <= subs && chans.Keys == was.Keys
        invariant subscribers == left
        invariant forall id :: id in was ==>
          chans[id] == if id in subs - left then was[id].(closed := true) else was[id]
        decreases left
      {
        var id :| id in left;
        subscribers := subscribers - {id};
        chans := chans[id := chans[id].(closed := true)];
        left := left - {id};
      }
    }
  }
}
