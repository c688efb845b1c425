/**
 * What the end of a subscription leaves behind on the channel bus: messages in its buffer, and
 * publishers that are at its full channel.
 */
module Endings {
  import opened Core
  import opened Subscriptions
  import opened Broker
  import opened BrokerLaws

  // ---------------------------------------------------------------------------
  // A subscription that holds what it has accepted
  // ---------------------------------------------------------------------------

  const SUBJECT := "s"

  /** A subscription in its receive loop that has accepted some messages and received none. */
  function Waiting(cap: nat, bridge: Option<nat>, log: seq<Entry>): Cell {
    Fresh(SUBJECT, cap, bridge).(stage := Idle, readies := 1, buf := log, accepted := log)
  }

  /** Goroutine 0 has published the messages, and nobody else ever did anything. */
  ghost predicate Holds(s: State, cap: nat, bridge: Option<nat>, log: seq<Entry>) {
    && s.chans == map[0 := Waiting(cap, bridge, log)] && s.lists == map[SUBJECT := [0]] && s.writer.None?
    && s.threads.Keys <= {0}
    && !ThreadOf(s, 0).done && ThreadOf(s, 0).pc.Quiet? && |ThreadOf(s, 0).past| == |log|
  }

  lemma Subscribed(cap: nat, bridge: Option<nat>) returns (run: seq<State>)
    ensures IsRun(run) && Holds(run[|run| - 1], cap, bridge, [])
  {
    run := [State(map[], map[], map[], None, 0)];
    var x := Fresh(SUBJECT, cap, bridge);
    run := Extend(run, Make(0, SUBJECT, cap, bridge));
    assert run[|run| - 1] == State(map[0 := x], map[], map[], None, 0);
    run := Extend(run, Lock(0));
    run := Extend(run, Write(0));
    assert [] + [0] == [0];
    assert run[|run| - 1].chans == map[0 := x.(stage := Registered)];
    run := Extend(run, AtCell(0, Ready));
    assert run[|run| - 1].chans == map[0 := Waiting(cap, bridge, [])];
  }

  /** The next call of goroutine 0 once it has its snapshot. */
  function NextCall(past: seq<Record>): Record {
    Record(Entry(0, |past|, "m"), SUBJECT, [0], 0, {0}, None)
  }

  lemma Snapshotted(run: seq<State>, cap: nat, bridge: Option<nat>, log: seq<Entry>) returns (longer: seq<State>)
    requires IsRun(run) && Holds(run[|run| - 1], cap, bridge, log)
    ensures IsRun(longer)
    ensures var s, s' := run[|run| - 1], longer[|longer| - 1];
            && s'.chans == s.chans && s'.lists == s.lists && s'.writer.None?
            && s'.threads == map[0 := Thread(ThreadOf(s, 0).past, false, Sending(NextCall(ThreadOf(s, 0).past)))]
  {
    longer := Extend(run, Begin(0, SUBJECT, "m"));
    longer := Extend(longer, CopyOne(0));
    assert ThreadOf(longer[|longer| - 1], 0).pc.copied == [0];
    assert Window(longer[|longer| - 1], SUBJECT) == {0};
    longer := Extend(longer, CopyDone(0));
  }

  /** One more call, which returns nil. */
  lemma Published(run: seq<State>, cap: nat, bridge: Option<nat>, log: seq<Entry>) returns (longer: seq<State>)
    requires IsRun(run) && Holds(run[|run| - 1], cap, bridge, log) && |log| < cap
    ensures IsRun(longer) && Holds(longer[|longer| - 1], cap, bridge, log + [Entry(0, |log|, "m")])
    ensures var past := ThreadOf(run[|run| - 1], 0).past;
            ThreadOf(longer[|longer| - 1], 0).past == past + [NextCall(past).(sent := 1, ok := Some(true))]
  {
    longer := Snapshotted(run, cap, bridge, log);
    longer := Extend(longer, Send(0));
    assert longer[|longer| - 1].chans == map[0 := Waiting(cap, bridge, log + [Entry(0, |log|, "m")])];
    longer := Extend(longer, Return(0));
  }

  /** As many messages as the buffer takes can be left in it. */
  lemma {:induction false} Filled(cap: nat, n: nat) returns (run: seq<State>, log: seq<Entry>)
    requires n <= cap
    ensures IsRun(run) && Holds(run[|run| - 1], cap, None, log) && |log| == n
    ensures n == 1 ==> log == [Entry(0, 0, "m")]
                       && ThreadOf(run[|run| - 1], 0).past == [NextCall([]).(sent := 1, ok := Some(true))]
  {
    if n == 0 {
      run := Subscribed(cap, None);
      log := [];
    } else {
      var before, buffered := Filled(cap, n - 1);
      run := Published(before, cap, None, buffered);
      log := buffered + [Entry(0, |buffered|, "m")];
      if n == 1 {
        assert buffered == [] && ThreadOf(before[|before| - 1], 0).past == [];
      }
    }
  }

  // ---------------------------------------------------------------------------
  // Accepted does not mean handled
  // ---------------------------------------------------------------------------

  /** The end of a subscription is final: what it has not handled by then stays in its buffer. */
  lemma {:induction false} EndIsFinal(run: seq<State>, from: nat, c: Chan)
    requires IsRun(run) && from < |run| && c in run[from].chans && Ended(run[from].chans[c])
    ensures c in run[|run| - 1].chans && StaysEnded(run[from].chans[c], run[|run| - 1].chans[c])
    decreases |run|
  {
    if from == |run| - 1 {
    } else {
      var before, ev := LastEvent(run);
      assert before[from] == run[from];
      EndIsFinal(before, from, c);
      CloseIsLast(before[|before| - 1], ev, c, run[|run| - 1]);
    }
  }

  /** In every continuation of the run the subscription has handled nothing. */
  ghost predicate NeverHandles(run: seq<State>, c: Chan) {
    forall longer: seq<State> | IsRun(longer) && run <= longer ::
      c in longer[|longer| - 1].chans && longer[|longer| - 1].chans[c].handled == []
  }

  /**
   * A nil result promises acceptance, not handling: for every buffer size above zero there is a run
   * in which a call returned nil, the subscription it found ready ended with the message in its
   * buffer, and no continuation handles it.
   */
  lemma AcceptedNotHandled(cap: nat) returns (run: seq<State>)
    requires cap > 0
    ensures IsRun(run)
    ensures var s := run[|run| - 1];
            && |ThreadOf(s, 0).past| == 1 && ThreadOf(s, 0).past[0].ok == Some(true)
            && ThreadOf(s, 0).past[0].seen == {0}
            && 0 in s.chans && s.chans[0].cap == cap && Ended(s.chans[0])
            && Accepted(s, 0, ThreadOf(s, 0).past[0].e) == 1
    ensures NeverHandles(run, 0)
  {
    var log: seq<Entry>;
    run, log := Filled(cap, 1);
    run := Extend(run, AtCell(0, Cancel));
    run := Extend(run, AtCell(0, Leave));
    PublishOutcome(run, 0, 0, 0);
    forall longer: seq<State> | IsRun(longer) && run <= longer
      ensures 0 in longer[|longer| - 1].chans && longer[|longer| - 1].chans[0].handled == []
    {
      EndIsFinal(longer, |run| - 1, 0);
    }
  }

  /** A run that ends with an ended subscription of this buffer size. */
  ghost predicate EndedWith(run: seq<State>, c: Chan, cap: nat) {
    && IsRun(run)
    && var chans := run[|run| - 1].chans;
       c in chans && chans[c].cap == cap && Ended(chans[c])
  }

  /** In no run does a subscription with this buffer size end with a message it has not handled. */
  ghost predicate HandlesAll(cap: nat) {
    forall run: seq<State>, c: Chan | EndedWith(run, c, cap) ::
      Entries(run[|run| - 1].chans[c].handled) == run[|run| - 1].chans[c].accepted
  }

  /** Accepted means handled for every subscription that ended exactly when its channel is unbuffered. */
  lemma HandledExactly(cap: nat)
    ensures HandlesAll(cap) <==> cap == 0
  {
    if cap == 0 {
      forall run: seq<State>, c: Chan | EndedWith(run, c, cap)
        ensures Entries(run[|run| - 1].chans[c].handled) == run[|run| - 1].chans[c].accepted
      {
        Conservation(run, c);
      }
    } else {
      var run := AcceptedNotHandled(cap);
      var x := run[|run| - 1].chans[0];
      assert run <= run && x.handled == [];
      assert EndedWith(run, 0, cap) && x.accepted != [];
    }
  }

  // ---------------------------------------------------------------------------
  // Publishers held at a dead channel
  // ---------------------------------------------------------------------------

  /** The receive loop has ended and the buffer is full. */
  predicate Dead(x: Cell) {
    Ended(x) && |x.buf| >= x.cap
  }

  /** The channel of a goroutine at a channel. */
  function At(s: State, t: nat): Chan
    requires AtChannel(s, t)
  {
    ThreadOf(s, t).pc.r.snapshot[ThreadOf(s, t).pc.r.sent]
  }

  /** A publisher is at a dead channel, and its context is live. */
  predicate Stuck(s: State, t: nat) {
    AtChannel(s, t) && Dead(Target(s, t)) && !ThreadOf(s, t).done
  }

  lemma StuckStep(s: State, ev: Event, t: nat, s': State)
    requires Stuck(s, t) && Enabled(s, ev) && s' == Apply(s, ev) && !ThreadOf(s', t).done
    ensures Stuck(s', t) && ThreadOf(s', t) == ThreadOf(s, t)
  {
    match ev
    case AtCell(d, l) =>
      if d == At(s, t) {
        assert LocalApply(s.chans[d], l).buf == s.chans[d].buf;
      }
    case Write(d) =>
    case Send(u) =>
    case SendToWaiting(u) =>
    case _ =>
  }

  lemma StuckCannotMove(s: State, t: nat)
    requires Stuck(s, t)
    ensures !CanMove(s, t)
  {
  }

  /**
   * A subscription cancelled while a publisher is at its full channel leaves that publisher waiting:
   * whatever happens next, it does not move until its own context ends.
   */
  lemma {:induction false} DeadChannelHolds(run: seq<State>, from: nat, t: nat)
    requires IsRun(run) && from < |run| && Stuck(run[from], t)
    requires forall i | from <= i < |run| :: !ThreadOf(run[i], t).done
    ensures Stuck(run[|run| - 1], t) && ThreadOf(run[|run| - 1], t) == ThreadOf(run[from], t)
    ensures !CanMove(run[|run| - 1], t)
    decreases |run|
  {
    if from == |run| - 1 {
    } else {
      var before, ev := LastEvent(run);
      assert forall i | from <= i < |before| :: before[i] == run[i];
      DeadChannelHolds(before, from, t);
      StuckStep(before[|before| - 1], ev, t, run[|run| - 1]);
    }
    StuckCannotMove(run[|run| - 1], t);
  }

  /** This does happen: for every buffer size a publisher can get stuck. */
  lemma StuckReachable(cap: nat) returns (run: seq<State>)
    ensures IsRun(run) && Stuck(run[|run| - 1], 0) && Target(run[|run| - 1], 0).cap == cap
  {
    var full, log := Filled(cap, cap);
    run := Snapshotted(full, cap, None, log);
    run := Extend(run, AtCell(0, Cancel));
    run := Extend(run, AtCell(0, Leave));
  }

  /** The run goes on to `longer`, and goroutine t has not moved. */
  ghost predicate Pauses(run: seq<State>, longer: seq<State>, t: nat) {
    && |run| > 0 && IsRun(longer) && run <= longer
    && forall i | |run| - 1 <= i < |longer| :: ThreadOf(longer[i], t) == ThreadOf(run[|run| - 1], t)
  }

  /** The run goes on to `longer`, and goroutine t has moved although its context stayed live. */
  ghost predicate Frees(run: seq<State>, longer: seq<State>, t: nat) {
    && |run| > 0 && IsRun(longer) && run <= longer
    && (forall i | |run| - 1 <= i < |longer| :: !ThreadOf(longer[i], t).done)
    && ThreadOf(longer[|longer| - 1], t) != ThreadOf(run[|run| - 1], t)
  }

  ghost predicate CanBeFreed(run: seq<State>, t: nat) {
    exists longer :: Frees(run, longer, t)
  }

  lemma PauseThenFree(run: seq<State>, mid: seq<State>, t: nat)
    requires Pauses(run, mid, t) && CanBeFreed(mid, t)
    ensures CanBeFreed(run, t)
  {
    var longer :| Frees(mid, longer, t);
    forall i | |run| - 1 <= i < |longer| ensures !ThreadOf(longer[i], t).done {
      if i < |mid| {
        assert longer[i] == mid[i];
        assert ThreadOf(mid[i], t) == ThreadOf(mid[|mid| - 1], t);
        assert longer[|mid| - 1] == mid[|mid| - 1] && !ThreadOf(longer[|mid| - 1], t).done;
      }
    }
    assert Frees(run, longer, t);
  }

  /** A run that ends with a live goroutine at a channel in state x. */
  ghost predicate Facing(run: seq<State>, t: nat, x: Cell) {
    && IsRun(run) && AtChannel(run[|run| - 1], t) && Target(run[|run| - 1], t) == x
    && !ThreadOf(run[|run| - 1], t).done
  }

  /** The channel takes a local step. */
  lemma TargetMoves(run: seq<State>, t: nat, x: Cell, l: Local) returns (mid: seq<State>)
    requires Facing(run, t, x) && LocalEnabled(x, l)
    ensures Pauses(run, mid, t) && Facing(mid, t, LocalApply(x, l))
  {
    mid := Extend(run, AtCell(At(run[|run| - 1], t), l));
  }

  lemma FreedBySend(run: seq<State>, t: nat, x: Cell)
    requires Facing(run, t, x) && (|x.buf| < x.cap || (x.stage.Idle? && x.buf == []))
    ensures CanBeFreed(run, t)
  {
    var longer := Extend(run, if |x.buf| < x.cap then Send(t) else SendToWaiting(t));
    assert Frees(run, longer, t);
  }

  lemma FreedFromIdle(run: seq<State>, t: nat, x: Cell)
    requires Facing(run, t, x) && x.stage.Idle? && |x.buf| <= x.cap
    ensures CanBeFreed(run, t)
  {
    if x.buf == [] {
      FreedBySend(run, t, x);
    } else {
      var mid := TargetMoves(run, t, x, Receive);
      FreedBySend(mid, t, LocalApply(x, Receive));
      PauseThenFree(run, mid, t);
    }
  }

  lemma FreedAfter(run: seq<State>, t: nat, x: Cell, l: Local)
    requires Facing(run, t, x) && LocalEnabled(x, l) && |LocalApply(x, l).buf| <= x.cap
    requires LocalApply(x, l).stage.Idle? && LocalApply(x, l).cap == x.cap
    ensures CanBeFreed(run, t)
  {
    var mid := TargetMoves(run, t, x, l);
    FreedFromIdle(mid, t, LocalApply(x, l));
    PauseThenFree(run, mid, t);
  }

  /** The handler returns; in a bridge with a full output the consumer takes something first. */
  lemma FreedFromHandling(run: seq<State>, t: nat, x: Cell)
    requires Facing(run, t, x) && x.stage.Handling? && CellOk(x)
    ensures CanBeFreed(run, t)
  {
    if x.bridge.None? {
      FreedAfter(run, t, x, Finish);
    } else if |x.out| < x.bridge.value {
      FreedAfter(run, t, x, Forward);
    } else if x.bridge.value == 0 {
      FreedAfter(run, t, x, Handoff);
    } else {
      var mid := TargetMoves(run, t, x, Take);
      FreedAfter(mid, t, LocalApply(x, Take), Forward);
      PauseThenFree(run, mid, t);
    }
  }

  /** Mutex steps do not move a goroutine that is sending. */
  lemma {:induction false} LocksPause(run: seq<State>, s': State, evs: seq<Event>, t: nat) returns (mid: seq<State>)
    requires IsRun(run) && LockReach(run[|run| - 1], s', evs) && ThreadOf(run[|run| - 1], t).pc.Sending?
    ensures Pauses(run, mid, t) && mid[|mid| - 1] == s'
    decreases |evs|
  {
    mid := run;
    if evs == [] {
    } else {
      var next := Extend(run, evs[0]);
      assert ThreadOf(next[|next| - 1], t) == ThreadOf(run[|run| - 1], t);
      mid := LocksPause(next, s', evs[1..], t);
      forall i | |run| - 1 <= i < |mid| ensures ThreadOf(mid[i], t) == ThreadOf(run[|run| - 1], t) {
        if i < |next| {
          assert mid[i] == next[i];
        }
      }
    }
  }

  lemma FreedFromCreated(run: seq<State>, t: nat, x: Cell)
    requires Facing(run, t, x) && x.stage.Created?
    ensures CanBeFreed(run, t)
  {
    var c := At(run[|run| - 1], t);
    var s', evs := RegistrationProceeds(run, c);
    var mid := LocksPause(run, s', evs, t);
    assert ThreadOf(s', t) == ThreadOf(run[|run| - 1], t);
    CellFact(mid, c);
    assert Facing(mid, t, s'.chans[c]);
    FreedAfter(mid, t, s'.chans[c], Ready);
    PauseThenFree(run, mid, t);
  }

  /**
   * From every reachable state a publisher at a channel whose context is live can still be freed by
   * the others exactly when the channel is not dead: either its receive loop has not ended, or its
   * buffer has room.
   */
  lemma FreedExactly(run: seq<State>, t: nat)
    requires IsRun(run) && AtChannel(run[|run| - 1], t) && !ThreadOf(run[|run| - 1], t).done
    ensures CanBeFreed(run, t) <==> !Dead(Target(run[|run| - 1], t))
  {
    var x := Target(run[|run| - 1], t);
    CellFact(run, At(run[|run| - 1], t));
    if Dead(x) {
      forall longer: seq<State> ensures !Frees(run, longer, t) {
        if Frees(run, longer, t) {
          assert longer[|run| - 1] == run[|run| - 1];
          DeadChannelHolds(longer, |run| - 1, t);
        }
      }
    } else if |x.buf| < x.cap {
      FreedBySend(run, t, x);
    } else {
      match x.stage
      case Created => FreedFromCreated(run, t, x);
      case Registered => FreedAfter(run, t, x, Ready);
      case Idle => FreedFromIdle(run, t, x);
      case Handling(_) => FreedFromHandling(run, t, x);
    }
  }
}
