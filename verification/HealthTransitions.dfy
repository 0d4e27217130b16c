/** Every observed change gets into the history and to the subscribers (health.go:225-271),
    told from the actions of a run alone. */
module HealthTransitions {
  import opened Options
  import opened Health

  // ----- one observation -----

  /** An observation of another state than the present one is a transition: it becomes the
      state, goes into the history and to every subscriber with room; the others are
      closed and dropped. An observation of the present state, or of a source the monitor
      does not know, changes none of these. */
  lemma ObservationIs(s: State, src: Source, now: int, fromProbe: bool)
    requires Inv(s)
    ensures var s' := Step(s, Observe(src, now, fromProbe)); !Known(src) ==> s' == s
    ensures var s' := Step(s, Observe(src, now, fromProbe));
      Known(src) ==> s'.state == src && s'.lastProbed == (if fromProbe then Some(now) else s.lastProbed)
    ensures var s' := Step(s, Observe(src, now, fromProbe));
      Known(src) && src == s.state ==>
        s'.history == s.history && s'.since == s.since && s'.chans == s.chans && s'.members == s.members
    ensures var s' := Step(s, Observe(src, now, fromProbe));
      Known(src) && src != s.state ==>
        s'.history == s.history + [Mark(src, now)] && s'.since == now && s'.chans.Keys == s.chans.Keys && s'.members <= s.members &&
        (forall id :: id in s.members ==> Heard(s.chans[id], s'.chans[id], Mark(src, now), id in s'.members)) &&
        (forall id :: id in s.chans && id !in s.members ==> s'.chans[id] == s.chans[id])
  {
    ObservedIs(s, src, now, fromProbe);
    hide Observed, Inv;
  }

  /** Nothing else touches state, history or the time of the last transition. */
  lemma OnlyObservationsChangeState(s: State, a: Action)
    requires Enabled(s, a) && !a.Observe?
    ensures var s' := Step(s, a); s'.state == s.state && s'.since == s.since && s'.history == s.history
    ensures !a.ProbeAttempt? ==> Step(s, a).lastProbed == s.lastProbed
    ensures a.ProbeAttempt? ==> Step(s, a).lastProbed == Some(a.now)
  {
  }

  // ----- every run -----

  /** The last known source observed. */
  function LastSeen(acts: seq<Action>): Source {
    if acts == [] then Live
    else
      var a := acts[|acts| - 1];
      if a.Observe? && Known(a.src) then a.src else LastSeen(acts[..|acts| - 1])
  }

  /** The changes observed, each with its time. */
  function Changes(start: int, acts: seq<Action>): seq<Mark> {
    if acts == [] then [Mark(Live, start)]
    else
      var a, before := acts[|acts| - 1], acts[..|acts| - 1];
      if a.Observe? && Known(a.src) && a.src != LastSeen(before) then Changes(start, before) + [Mark(a.src, a.now)]
      else Changes(start, before)
  }

  /** When a probe was last under way. */
  function LastProbe(acts: seq<Action>): Option<int> {
    if acts == [] then None
    else
      var a := acts[|acts| - 1];
      if a.ProbeAttempt? || (a.Observe? && a.fromProbe && Known(a.src)) then Some(a.now)
      else LastProbe(acts[..|acts| - 1])
  }

  predicate Follows(start: int, acts: seq<Action>, s: State) {
    s.state == LastSeen(acts) && s.history == Changes(start, acts) && s.lastProbed == LastProbe(acts)
  }

  lemma StepFollows(start: int, acts: seq<Action>, s: State, a: Action)
    requires Inv(s) && Follows(start, acts, s) && Enabled(s, a)
    ensures Follows(start, acts + [a], Step(s, a))
  {
    assert (acts + [a])[..|acts|] == acts;
    if a.Observe? {
      ObservationIs(s, a.src, a.now, a.fromProbe);
    } else {
      OnlyObservationsChangeState(s, a);
    }
    hide Step, Inv;
  }

  lemma {:induction false} LastAction(s: State, acts: seq<Action>, a: Action)
    requires Runs(s, acts + [a])
    ensures Runs(s, acts) && Enabled(After(s, acts), a) && After(s, acts + [a]) == Step(After(s, acts), a)
    decreases |acts|
  {
    hide Enabled, Step;
    var more := acts + [a];
    if acts == [] {
      assert more[0] == a && more[1..] == [];
    } else {
      assert more[0] == acts[0] && more[1..] == acts[1..] + [a];
      LastAction(Step(s, acts[0]), acts[1..], a);
    }
  }

  lemma InitIsGood(start: int)
    ensures Inv(Init(start)) && Follows(start, [], Init(start))
  {
  }

  /** In every run the state is the last known source observed, the history holds exactly
      the changes observed, each with its time, and the time of the last probe is that of
      the last attempt or observation by the probe. */
  lemma {:induction false} HistoryIsWhatWasObserved(start: int, acts: seq<Action>)
    requires Runs(Init(start), acts)
    ensures var s := After(Init(start), acts);
      s.state == LastSeen(acts) && s.history == Changes(start, acts) && s.lastProbed == LastProbe(acts) && Inv(s)
    decreases |acts|
  {
    InitIsGood(start);
    if acts != [] {
      hide Runs, After, Step, Enabled, Inv;
      var n := |acts| - 1;
      assert acts == acts[..n] + [acts[n]];
      LastAction(Init(start), acts[..n], acts[n]);
      HistoryIsWhatWasObserved(start, acts[..n]);
      RunKeepsInv(Init(start), acts);
      StepFollows(start, acts[..n], After(Init(start), acts[..n]), acts[n]);
    }
  }

  // ----- probing -----

  predicate Idle(acts: seq<Action>) { forall a :: a in acts && a.Start? ==> a.interval <= 0 }

  lemma NoProbeYet(s: State, a: Action)
    requires Enabled(s, a) && s.probe.Off? && s.probes == 0 && (a.Start? ==> a.interval <= 0)
    ensures Step(s, a).probe.Off? && Step(s, a).probes == 0
  {
    hide Observed, SubscribeAs, Dropped, TakeFrom, CloseAll;
    if a.Observe? { ObservedLeavesProbe(s, a.src, a.now, a.fromProbe); }
    if a.Subscribe? || a.Drop? || a.Take? { ChannelsLeaveProbe(s, a); }
  }

  lemma ObservedLeavesProbe(s: State, src: Source, now: int, fromProbe: bool)
    ensures var s' := Observed(s, src, now, fromProbe); s'.probe == s.probe && s'.probes == s.probes
  {
  }

  lemma ChannelsLeaveProbe(s: State, a: Action)
    requires Enabled(s, a) && (a.Subscribe? || a.Drop? || a.Take?)
    ensures Step(s, a).probe == s.probe && Step(s, a).probes == s.probes
  {
  }

  /** Before it is started with a positive interval the monitor does not probe. */
  lemma {:induction false} NoProbeWithoutInterval(s: State, acts: seq<Action>)
    requires Runs(s, acts) && s.probe.Off? && s.probes == 0 && Idle(acts)
    ensures After(s, acts).probes == 0 && After(s, acts).probe.Off?
    decreases |acts|
  {
    if acts != [] {
      assert acts[0] in acts && forall a :: a in acts[1..] ==> a in acts;
      NoProbeYet(s, acts[0]);
      hide Step, Enabled;
      NoProbeWithoutInterval(Step(s, acts[0]), acts[1..]);
    }
  }

  lemma RunCons(s: State, a: Action, rest: seq<Action>)
    requires Enabled(s, a) && Runs(Step(s, a), rest)
    ensures Runs(s, [a] + rest) && After(s, [a] + rest) == After(Step(s, a), rest)
  {
    hide Enabled, Step;
    assert ([a] + rest)[0] == a && ([a] + rest)[1..] == rest;
  }

  lemma FirstProbe(s: State, interval: int) returns (s1: State, s2: State, s3: State, s4: State)
    requires Enabled(s, Start(interval)) && interval > 0 && !s.done
    ensures s1 == Step(s, Start(interval)) && Enabled(s1, AddWatcher) && s2 == Step(s1, AddWatcher) && Enabled(s2, Tick)
    ensures s3 == Step(s2, Tick) && Enabled(s3, Recheck) && s4 == Step(s3, Recheck) && Enabled(s4, RunProbe)
    ensures Step(s4, RunProbe).probes == s.probes + 1 && Runs(Step(s4, RunProbe), []) && After(Step(s4, RunProbe), []) == Step(s4, RunProbe)
  {
    s1 := s.(started := true, wg := s.wg + 1, probe := Spawned);
    s2 := s1.(wg := s.wg + 2, watcher := Watching, probe := Top);
    s3 := s2.(probe := Ticked);
    s4 := s3.(probe := Passed);
  }

  /** Started with one it comes to probe, unless it is closed. */
  lemma StartedMonitorProbes(s: State, interval: int)
    requires Enabled(s, Start(interval)) && interval > 0 && !s.done
    ensures exists acts: seq<Action> :: Runs(s, acts) && |acts| == 5 && After(s, acts).probes == s.probes + 1
  {
    var s1, s2, s3, s4 := FirstProbe(s, interval);
    hide Step, Enabled, Runs, After;
    RunCons(s4, RunProbe, []);
    RunCons(s3, Recheck, [RunProbe] + []);
    RunCons(s2, Tick, [Recheck] + ([RunProbe] + []));
    RunCons(s1, AddWatcher, [Tick] + ([Recheck] + ([RunProbe] + [])));
    RunCons(s, Start(interval), [AddWatcher] + ([Tick] + ([Recheck] + ([RunProbe] + []))));
  }

  /** A fresh monitor does too, and can be started once. */
  lemma FreshMonitorProbes(now: int, interval: int)
    requires interval > 0
    ensures exists acts: seq<Action> :: Runs(Init(now), acts) && |acts| == 5 && After(Init(now), acts).probes == 1
    ensures Init(now).members == {} && Init(now).chans == map[] && Init(now).phase == Open && !Init(now).cancelled && !Init(now).panicked
  {
    StartedMonitorProbes(Init(now), interval);
  }

  lemma {:induction false} StartIsFinal(s: State, interval: int, acts: seq<Action>)
    requires s.started && Runs(s, acts)
    ensures !Enabled(After(s, acts), Start(interval))
    decreases |acts|
  {
    if acts != [] { StartIsFinal(Step(s, acts[0]), interval, acts[1..]); }
  }

  /** After any start no other has an effect. */
  lemma StartsOnce(s: State, interval: int, again: int, acts: seq<Action>)
    requires Enabled(s, Start(interval)) && Runs(Step(s, Start(interval)), acts)
    ensures !Enabled(After(Step(s, Start(interval)), acts), Start(again))
  {
    StartIsFinal(Step(s, Start(interval)), again, acts);
  }

  // ----- the alarm -----

  /** A send on a closed channel, and a second close of one, would be noticed, and stay so:
      that none ever is noticed says that none happens. */
  lemma AlarmWorks(s: State, id: nat, src: Source, now: int, fromProbe: bool)
    requires id in s.members && id in s.chans && s.chans[id].closed
    ensures Known(src) && src != s.state ==> Step(s, Observe(src, now, fromProbe)).panicked
    ensures Step(s, Drop(id)).panicked
    ensures s.phase.Waited? ==> Step(s, CloseDrain).panicked
  {
  }

  lemma AlarmStays(s: State, a: Action)
    requires s.panicked && Enabled(s, a)
    ensures Step(s, a).panicked
  {
  }
}
