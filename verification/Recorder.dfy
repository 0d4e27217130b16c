/** The asynchronous recorder (recorder.go): senders and Close share a mutex, a
    drain goroutine empties the channel into the store. Every interleaving of
    their lock and channel operations is a schedule of actions. */
module Recorder {
  import opened Tapes

  datatype Owner = Free | Sending(tape: Tape, sawClosed: bool) | Closing

  datatype ClosePhase = Open | Locked | Marked | Waiting | Returned

  /** A tape passed to `persistTape`, and whether it got into the channel. */
  datatype Offer = Offer(tape: Tape, accepted: bool)

  datatype State = State(
    cap: nat, mu: Owner, closed: bool, chanClosed: bool,
    queue: seq<Tape>, inflight: seq<Tape>, saved: seq<Tape>,
    offers: seq<Offer>, drainDone: bool, phase: ClosePhase,
    panicked: bool) // set by a send on, or a second close of, a closed channel

  function Init(cap: nat): State {
    State(cap, Free, false, false, [], [], [], [], false, Open, false)
  }

  datatype Action =
    | SendLock(tape: Tape) // persistTape: lock, read the closed flag
    | SendTry              // persistTape: drop or select-send, unlock
    | CloseLock | CloseMark | CloseChannel | CloseReturn
    | Receive | SaveOne | DrainExit

  predicate Enabled(s: State, a: Action) {
    match a
    case SendLock(_) => s.mu.Free?
    case SendTry => s.mu.Sending?
    case CloseLock => s.phase.Open? && s.mu.Free?
    case CloseMark => s.phase.Locked?
    case CloseChannel => s.phase.Marked?
    case CloseReturn => s.phase.Waiting? && s.drainDone
    case Receive => !s.drainDone && s.inflight == [] && s.queue != []
    case SaveOne => s.inflight != []
    case DrainExit => !s.drainDone && s.inflight == [] && s.queue == [] && s.chanClosed
  }

  function Step(s: State, a: Action): State
    requires Enabled(s, a)
  {
    match a
    case SendLock(tape) => s.(mu := Sending(tape, s.closed))
    case SendTry =>
      if s.mu.sawClosed then s.(mu := Free, offers := s.offers + [Offer(s.mu.tape, false)])
      else if s.chanClosed then s.(panicked := true)
      else if |s.queue| < s.cap then
        s.(mu := Free, queue := s.queue + [s.mu.tape], offers := s.offers + [Offer(s.mu.tape, true)])
      else s.(mu := Free, offers := s.offers + [Offer(s.mu.tape, false)])
    case CloseLock => s.(mu := Closing, phase := Locked)
    case CloseMark => s.(closed := true, phase := Marked)
    case CloseChannel =>
      if s.chanClosed then s.(panicked := true)
      else s.(chanClosed := true, mu := Free, phase := Waiting)
    case CloseReturn => s.(phase := Returned)
    case Receive => s.(inflight := [s.queue[0]], queue := s.queue[1..])
    case SaveOne => s.(saved := s.saved + s.inflight, inflight := [])
    case DrainExit => s.(drainDone := true)
  }

  /** The actions can be taken one after the other. */
  predicate Runs(s: State, acts: seq<Action>)
    decreases |acts|
  {
    acts == [] || (Enabled(s, acts[0]) && Runs(Step(s, acts[0]), acts[1..]))
  }

  function After(s: State, acts: seq<Action>): State
    requires Runs(s, acts)
    decreases |acts|
  {
    if acts == [] then s else After(Step(s, acts[0]), acts[1..])
  }

  /** The tapes that got into the channel, in order. */
  function Accepted(offers: seq<Offer>): seq<Tape> {
    if offers == [] then []
    else
      var last := offers[|offers| - 1];
      Accepted(offers[..|offers| - 1]) + if last.accepted then [last.tape] else []
  }

  lemma AcceptedSnoc(offers: seq<Offer>, o: Offer)
    ensures Accepted(offers + [o]) == Accepted(offers) + if o.accepted then [o.tape] else []
  {
    assert (offers + [o])[..|offers|] == offers;
  }

  ghost predicate Inv(s: State) {
    // conservation: what got in is saved, in hand or still queued, in order
    && Accepted(s.offers) == s.saved + s.inflight + s.queue
    && |s.queue| <= s.cap && |s.inflight| <= 1
    && !s.panicked
    // the flag a sender read stays right while it holds the mutex
    && (s.mu.Sending? ==> s.mu.sawClosed == s.closed)
    && (s.mu.Closing? <==> s.phase.Locked? || s.phase.Marked?)
    && (s.closed <==> !s.phase.Open? && !s.phase.Locked?)
    && (s.chanClosed <==> s.phase.Waiting? || s.phase.Returned?)
    && (s.drainDone ==> s.chanClosed && s.queue == [] && s.inflight == [])
    && (s.phase.Returned? ==> s.drainDone)
  }

  lemma StepKeepsInv(s: State, a: Action)
    requires Inv(s) && Enabled(s, a)
    ensures Inv(Step(s, a))
  {
    hide Accepted;
    match a {
      case SendTry =>
        AcceptedSnoc(s.offers, Offer(s.mu.tape, true));
        AcceptedSnoc(s.offers, Offer(s.mu.tape, false));
      case Receive =>
        assert s.queue == [s.queue[0]] + s.queue[1..];
      case _ =>
    }
  }

  lemma {:induction false} RunKeepsInv(s: State, acts: seq<Action>)
    requires Inv(s) && Runs(s, acts)
    ensures Inv(After(s, acts))
    decreases |acts|
  {
    if acts != [] {
      StepKeepsInv(s, acts[0]);
      RunKeepsInv(Step(s, acts[0]), acts[1..]);
    }
  }

  /** In every run no send or close hits a closed channel, the channel never holds
      more than its capacity, and the accepted tapes are exactly the saved ones
      followed by the one in hand and the queued ones. */
  lemma RecorderConservesTapes(cap: nat, acts: seq<Action>)
    requires Runs(Init(cap), acts)
    ensures var s := After(Init(cap), acts);
      !s.panicked && |s.queue| <= cap && Accepted(s.offers) == s.saved + s.inflight + s.queue
  {
    RunKeepsInv(Init(cap), acts);
    CapIsConstant(Init(cap), acts);
  }

  lemma {:induction false} CapIsConstant(s: State, acts: seq<Action>)
    requires Runs(s, acts)
    ensures After(s, acts).cap == s.cap
    decreases |acts|
  {
    if acts != [] { CapIsConstant(Step(s, acts[0]), acts[1..]); }
  }

  /** A tape is dropped exactly when the recorder is closed or the channel full at
      the moment of the test, and then nothing else changes. */
  lemma OfferVerdict(s: State)
    requires Inv(s) && s.mu.Sending?
    ensures var t := Step(s, SendTry);
      t.offers == s.offers + [Offer(s.mu.tape, !s.closed && |s.queue| < s.cap)] && t.saved == s.saved && t.mu.Free?
  {
  }

  // ----- after Close has returned -----

  lemma {:induction false} RunsSplit(s: State, a: seq<Action>, b: seq<Action>)
    requires Runs(s, a + b)
    ensures Runs(s, a) && Runs(After(s, a), b) && After(s, a + b) == After(After(s, a), b)
    decreases |a|
  {
    if a == [] {
      assert a + b == b;
    } else {
      assert (a + b)[1..] == a[1..] + b;
      RunsSplit(Step(s, a[0]), a[1..], b);
    }
  }

  lemma {:induction false} NothingAfterReturn(s: State, acts: seq<Action>)
    requires Inv(s) && s.phase.Returned? && Runs(s, acts)
    ensures var t := After(s, acts);
      t.saved == s.saved && Accepted(t.offers) == Accepted(s.offers) && t.phase.Returned?
    decreases |acts|
  {
    if acts != [] {
      StepKeepsInv(s, acts[0]);
      var t := Step(s, acts[0]);
      assert t.saved == s.saved && t.phase.Returned?;
      NothingAfterReturn(t, acts[1..]);
    }
  }

  /** When Close returns, every tape that got into the channel has been handed to
      the store, once and in order; nothing is accepted or written afterwards. */
  lemma CloseFlushesEverything(cap: nat, before: seq<Action>, later: seq<Action>)
    requires Runs(Init(cap), before + later)
    requires Runs(Init(cap), before) && After(Init(cap), before).phase.Returned?
    ensures var s, t := After(Init(cap), before), After(Init(cap), before + later);
      s.saved == Accepted(s.offers) && t.saved == s.saved && Accepted(t.offers) == Accepted(s.offers)
  {
    RunsSplit(Init(cap), before, later);
    RunKeepsInv(Init(cap), before);
    NothingAfterReturn(After(Init(cap), before), later);
  }

  /** Close never waits for anyone but the drain loop: once the channel is closed,
      finitely many drain actions let it return. */
  lemma {:induction false} DrainFinishes(s: State) returns (acts: seq<Action>)
    requires Inv(s) && s.phase.Waiting?
    ensures Runs(s, acts) && After(s, acts).phase.Returned?
    ensures |acts| <= 2 * |s.queue| + |s.inflight| + (if s.drainDone then 1 else 2)
    ensures forall a :: a in acts ==> a.Receive? || a.SaveOne? || a.DrainExit? || a.CloseReturn?
    decreases 2 * |s.queue| + |s.inflight| + if s.drainDone then 0 else 1
  {
    var a := if s.inflight != [] then SaveOne else if s.queue != [] then Receive
      else if !s.drainDone then DrainExit else CloseReturn;
    StepKeepsInv(s, a);
    if a.CloseReturn? {
      acts := [a];
      assert acts[1..] == [];
    } else {
      var rest := DrainFinishes(Step(s, a));
      acts := [a] + rest;
      assert acts[1..] == rest;
    }
  }

  // ----- the object -----

  /** An empty channel after the close: the drain loop may end and Close return. */
  lemma Drained(s: State)
    requires Inv(s) && s.phase.Waiting? && s.queue == [] && s.inflight == []
    ensures s.saved == Accepted(s.offers) && Inv(s.(drainDone := true, phase := Returned))
  {
  }

  /** A send on the closed channel, and a second close of it, would be noticed, and stay so:
      that none ever is noticed says that none happens. */
  lemma AlarmWorks(s: State, a: Action)
    requires Enabled(s, a)
    ensures a.SendTry? && s.chanClosed && !s.mu.sawClosed ==> Step(s, a).panicked
    ensures a.CloseChannel? && s.chanClosed ==> Step(s, a).panicked
    ensures s.panicked ==> Step(s, a).panicked
  {
  }

  /** The recorder's fields; each method is one uninterrupted critical section,
      or the drain loop running alone. */
  class AsyncRecorder {
    var closed: bool
    var chanClosed: bool
    var tapeCh: seq<Tape>
    var store: seq<Tape>
    const bufSize: nat
    ghost var offers: seq<Offer>

    ghost function View(phase: ClosePhase, drainDone: bool): State
      reads this
    {
      State(bufSize, Free, closed, chanClosed, tapeCh, [], store, offers, drainDone, phase, false)
    }

    constructor (bufSize: nat)
      ensures this.bufSize == bufSize && View(Open, false) == Init(bufSize)
    {
      this.bufSize := bufSize;
      closed, chanClosed, tapeCh, store, offers := false, false, [], [], [];
    }

    method PersistTape(tape: Tape, ghost phase: ClosePhase, ghost drainDone: bool)
      requires Inv(View(phase, drainDone))
      modifies this`tapeCh, this`offers
      ensures View(phase, drainDone) == Step(Step(old(View(phase, drainDone)), SendLock(tape)), SendTry)
      ensures Inv(View(phase, drainDone))
    {
      ghost var s := View(phase, drainDone);
      StepKeepsInv(s, SendLock(tape));
      StepKeepsInv(Step(s, SendLock(tape)), SendTry);
      if closed {
        offers := offers + [Offer(tape, false)];
      } else if |tapeCh| < bufSize {
        tapeCh := tapeCh + [tape];
        offers := offers + [Offer(tape, true)];
      } else {
        offers := offers + [Offer(tape, false)];
      }
    }

    /** The part of Close under the mutex. */
    method CloseChannelOnce()
      requires Inv(View(Open, false))
      modifies this`closed, this`chanClosed
      ensures View(Waiting, false) == Step(Step(Step(old(View(Open, false)), CloseLock), CloseMark), CloseChannel)
      ensures Inv(View(Waiting, false))
    {
      ghost var s := View(Open, false);
      StepKeepsInv(s, CloseLock);
      StepKeepsInv(Step(s, CloseLock), CloseMark);
      StepKeepsInv(Step(Step(s, CloseLock), CloseMark), CloseChannel);
      closed := true;
      chanClosed := true;
    }

    /** The drain loop after the channel has been closed. */
    method Drain()
      requires Inv(View(Waiting, false))
      modifies this`tapeCh, this`store
      ensures tapeCh == [] && store == old(store) + old(tapeCh) && store == Accepted(offers)
      ensures Inv(View(Returned, true))
    {
      hide Inv;
      ghost var was := store + tapeCh;
      while tapeCh != []
        invariant store + tapeCh == was
        invariant Inv(View(Waiting, false))
        decreases |tapeCh|
      {
        ghost var s := View(Waiting, false);
        StepKeepsInv(s, Receive);
        StepKeepsInv(Step(s, Receive), SaveOne);
        assert tapeCh == [tapeCh[0]] + tapeCh[1..];
        store, tapeCh := store + [tapeCh[0]], tapeCh[1..];
        assert View(Waiting, false) == Step(Step(s, Receive), SaveOne);
      }
      Drained(View(Waiting, false));
    }
  }
}
