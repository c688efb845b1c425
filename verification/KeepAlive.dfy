/**
 * The heartbeat goroutine of middleware/keepalive.go racing the acknowledgement of RetryAck, as a
 * state machine over single steps of the two goroutines.
 *
 * The middleware as written is one of sixteen designs: RetryAck outside or inside KeepAlive, the
 * heartbeat looking at `stopped` or not, both sides taking the mutex or not, and stop() cancelling
 * the heartbeat's context or not. The main theorem says which designs are safe in all runs: those
 * that share the first three with the middleware as written, whatever stop() does.
 */
module KeepAlive {
  import opened Core
  import opened Backoff
  import opened Acks

  datatype Design = Design(retryOutside: bool, checksStopped: bool, takesMutex: bool, stops: bool)

  /** Chain(RetryAck, KeepAlive) with the code of keepalive.go. */
  const AS_WRITTEN := Design(true, true, true, true)

  /** The three measures that safety rests on; whether stop() is called does not matter to it. */
  predicate Guarded(d: Design) {
    d.retryOutside && d.checksStopped && d.takesMutex
  }

  /** What is fixed for one delivery. */
  datatype Setting = Setting(design: Design, port: Port, policy: Policy)

  // The handler's goroutine.
  datatype Instr = CallNext | LockMu | SetStopped | UnlockMu | Stop | Settle

  function Program(d: Design): seq<Instr> {
    if d.retryOutside then [CallNext, LockMu, SetStopped, UnlockMu, Stop, Settle]
    else [CallNext, Settle, LockMu, SetStopped, UnlockMu, Stop]
  }

  // The heartbeat's goroutine: waiting in select, wanting the mutex, having it, about to call
  // InProgress, about to unlock, returned.
  datatype Heartbeat = Waiting | Ticked | Inside | Beating | Unlocking | Quit

  datatype Owner = Nobody | Main | Heart

  datatype State = State(
    pc: nat,
    heart: Heartbeat,
    mutex: Owner,
    stopped: bool,
    cancelled: bool,
    err: Option<Error>,
    log: seq<Call>
  )

  datatype Event =
    | NextReturns(err: Option<Error>)   // next(ctx, msg) returns
    | MainStep                          // the next instruction after that
    | CtxDone                           // the context given to the heartbeat ends
    | Tick | Enter | Test | Beat | Leave | Exit

  predicate Init(s: State) {
    s == State(0, Waiting, Nobody, false, false, None, [])
  }

  /** The mutex is free for a goroutine, or the design does not use it. */
  predicate Free(d: Design, s: State) {
    d.takesMutex ==> s.mutex == Nobody
  }

  predicate Enabled(cfg: Setting, s: State, e: Event) {
    var d := cfg.design;
    match e
    case NextReturns(_) => s.pc == 0
    case MainStep => 0 < s.pc < |Program(d)| && (Program(d)[s.pc] == LockMu ==> Free(d, s))
    case CtxDone => true
    case Tick => s.heart == Waiting
    case Enter => s.heart == Ticked && Free(d, s)
    case Test => s.heart == Inside
    case Beat => s.heart == Beating
    case Leave => s.heart == Unlocking
    case Exit => s.heart == Waiting && s.cancelled
  }

  function Sent(port: Port, call: Call): seq<Call> {
    var sent := Dispatch(port.caps, call);
    if sent.Some? then [sent.value] else []
  }

  function Apply(cfg: Setting, s: State, e: Event): State
    requires Enabled(cfg, s, e)
  {
    var d := cfg.design;
    match e
    case NextReturns(err) => s.(pc := 1, err := err)
    case MainStep =>
      var s' := s.(pc := s.pc + 1);
      (match Program(d)[s.pc]
       case CallNext => s'
       case LockMu => if d.takesMutex then s'.(mutex := Main) else s'
       case SetStopped => s'.(stopped := true)
       case UnlockMu => if d.takesMutex then s'.(mutex := Nobody) else s'
       case Stop => s'.(cancelled := s.cancelled || d.stops)
       case Settle => s'.(log := s.log + Sent(cfg.port, Verdict(cfg.policy, s.err, Delivered(cfg.port)))))
    case CtxDone => s.(cancelled := true)
    case Tick => s.(heart := Ticked)
    case Enter => s.(heart := Inside, mutex := if d.takesMutex then Heart else s.mutex)
    case Test => s.(heart := if d.checksStopped && s.stopped then Unlocking else Beating)
    case Beat => s.(heart := Unlocking, log := s.log + Sent(cfg.port, InProgress))
    case Leave => s.(heart := Waiting, mutex := if d.takesMutex then Nobody else s.mutex)
    case Exit => s.(heart := Quit)
  }

  ghost predicate IsRun(cfg: Setting, run: seq<State>) {
    && |run| > 0 && Init(run[0])
    && forall i :: 0 <= i < |run| - 1 ==> Next(cfg, run[i], run[i + 1])
  }

  ghost predicate Next(cfg: Setting, s: State, s': State) {
    exists e :: Enabled(cfg, s, e) && s' == Apply(cfg, s, e)
  }

  // ---------------------------------------------------------------------------
  // Safety of the design as written
  // ---------------------------------------------------------------------------

  predicate AllInProgress(log: seq<Call>) {
    forall i :: 0 <= i < |log| ==> log[i] == InProgress
  }

  /** Heartbeats only, or heartbeats followed by a single terminal call. */
  predicate SafeTrace(log: seq<Call>) {
    log != [] ==> AllInProgress(log[..|log| - 1])
  }

  ghost predicate Safe(cfg: Setting) {
    forall run: seq<State> :: IsRun(cfg, run) ==> SafeTrace(run[|run| - 1].log)
  }

  predicate Inv(cfg: Setting, s: State) {
    && 0 <= s.pc <= 6
    && (s.mutex == Heart <==> s.heart in {Inside, Beating, Unlocking})
    && (s.mutex == Main <==> 2 <= s.pc <= 3)
    && (s.stopped <==> s.pc >= 3)
    && (s.heart == Beating ==> !s.stopped)
    && (s.pc < 6 ==> AllInProgress(s.log))
    && (s.pc == 6 ==> Settled(cfg, s))
  }

  /** Heartbeats, then the acker call that the policy's verdict comes down to. */
  predicate Settled(cfg: Setting, s: State) {
    && s.log != [] && AllInProgress(s.log[..|s.log| - 1])
    && Dispatch(cfg.port.caps, Verdict(cfg.policy, s.err, Delivered(cfg.port))) == Some(s.log[|s.log| - 1])
  }

  lemma InvMainStep(cfg: Setting, s: State)
    requires Guarded(cfg.design) && Inv(cfg, s) && Enabled(cfg, s, MainStep)
    ensures Inv(cfg, Apply(cfg, s, MainStep))
  {
    var s' := Apply(cfg, s, MainStep);
    if s.pc == 5 {
      var verdict := Verdict(cfg.policy, s.err, Delivered(cfg.port));
      assert s'.log == s.log + [Dispatch(cfg.port.caps, verdict).value];
      assert s'.log[..|s'.log| - 1] == s.log;
    }
  }

  lemma InvHeartStep(cfg: Setting, s: State, e: Event)
    requires Guarded(cfg.design) && Inv(cfg, s) && Enabled(cfg, s, e)
    requires e.CtxDone? || e.Tick? || e.Enter? || e.Test? || e.Leave? || e.Exit?
    ensures Inv(cfg, Apply(cfg, s, e))
  {
    assert Apply(cfg, s, e).log == s.log;
  }

  lemma InvStep(cfg: Setting, s: State, e: Event)
    requires Guarded(cfg.design) && Inv(cfg, s) && Enabled(cfg, s, e)
    ensures Inv(cfg, Apply(cfg, s, e))
  {
    match e
    case NextReturns(_) =>
    case MainStep => InvMainStep(cfg, s);
    case Beat =>
    case _ => InvHeartStep(cfg, s, e);
  }

  /** The last event of a run. */
  lemma LastEvent(cfg: Setting, run: seq<State>) returns (before: seq<State>, e: Event)
    requires IsRun(cfg, run) && |run| > 1
    ensures before == run[..|run| - 1] && IsRun(cfg, before)
    ensures Enabled(cfg, before[|before| - 1], e) && run[|run| - 1] == Apply(cfg, before[|before| - 1], e)
  {
    before := run[..|run| - 1];
    forall i | 0 <= i < |before| - 1 ensures Next(cfg, before[i], before[i + 1]) {
      assert Next(cfg, run[i], run[i + 1]);
    }
    assert Next(cfg, run[|run| - 2], run[|run| - 2 + 1]);
    e :| Enabled(cfg, run[|run| - 2], e) && run[|run| - 1] == Apply(cfg, run[|run| - 2], e);
  }

  lemma {:induction false} InvRun(cfg: Setting, run: seq<State>)
    requires Guarded(cfg.design) && IsRun(cfg, run)
    ensures Inv(cfg, run[|run| - 1])
    decreases |run|
  {
    if |run| == 1 {
    } else {
      var before, e := LastEvent(cfg, run);
      InvRun(cfg, before);
      InvStep(cfg, before[|before| - 1], e);
    }
  }

  /**
   * In every interleaving the acker sees heartbeats only until the handler's goroutine is done, and
   * from then on, forever, heartbeats followed by exactly the one call that the policy asks for.
   */
  lemma AckTrace(cfg: Setting, run: seq<State>)
    requires Guarded(cfg.design) && IsRun(cfg, run)
    ensures var s := run[|run| - 1];
            if s.pc < |Program(AS_WRITTEN)| then AllInProgress(s.log)
            else Settled(cfg, s) && Terminal(s.log[|s.log| - 1]) && Terminals(s.log) == 1
  {
    InvRun(cfg, run);
    var s := run[|run| - 1];
    if s.pc == 6 {
      assert Terminal(Verdict(cfg.policy, s.err, Delivered(cfg.port)));
      HeartbeatsNotTerminal(s.log[..|s.log| - 1]);
    }
  }

  lemma {:induction false} HeartbeatsNotTerminal(log: seq<Call>)
    requires AllInProgress(log)
    ensures Terminals(log) == 0
  {
    if log == [] {
    } else {
      HeartbeatsNotTerminal(log[..|log| - 1]);
    }
  }

  // ---------------------------------------------------------------------------
  // What the design as written can do
  // ---------------------------------------------------------------------------

  lemma Extend(cfg: Setting, run: seq<State>, e: Event) returns (longer: seq<State>)
    requires IsRun(cfg, run) && Enabled(cfg, run[|run| - 1], e)
    ensures IsRun(cfg, longer) && run <= longer && longer[|longer| - 1] == Apply(cfg, run[|run| - 1], e)
  {
    longer := run + [Apply(cfg, run[|run| - 1], e)];
    forall i | 0 <= i < |longer| - 1 ensures Next(cfg, longer[i], longer[i + 1]) {
      if i < |run| - 1 {
        assert Next(cfg, run[i], run[i + 1]);
      }
    }
  }

  function Beats(n: nat): (log: seq<Call>)
    ensures |log| == n && AllInProgress(log)
  {
    if n == 0 then [] else Beats(n - 1) + [InProgress]
  }

  /** The heartbeat does beat: any number of times while the handler runs. */
  lemma {:induction false} HeartbeatsSent(cfg: Setting, n: nat) returns (run: seq<State>)
    requires cfg.design == AS_WRITTEN && cfg.port.caps.inProgresser
    ensures IsRun(cfg, run)
    ensures run[|run| - 1] == State(0, Waiting, Nobody, false, false, None, Beats(n))
  {
    if n == 0 {
      run := [State(0, Waiting, Nobody, false, false, None, [])];
    } else {
      run := HeartbeatsSent(cfg, n - 1);
      run := Extend(cfg, run, Tick);
      run := Extend(cfg, run, Enter);
      run := Extend(cfg, run, Test);
      run := Extend(cfg, run, Beat);
      run := Extend(cfg, run, Leave);
    }
  }

  /** The handler returns, and KeepAlive with it. */
  lemma KeepAliveReturns(cfg: Setting, n: nat, err: Option<Error>) returns (run: seq<State>)
    requires cfg.design == AS_WRITTEN && cfg.port.caps.inProgresser
    ensures IsRun(cfg, run)
    ensures run[|run| - 1] == State(5, Waiting, Nobody, true, true, err, Beats(n))
  {
    run := HeartbeatsSent(cfg, n);
    run := Extend(cfg, run, NextReturns(err));
    run := Extend(cfg, run, MainStep);
    run := Extend(cfg, run, MainStep);
    run := Extend(cfg, run, MainStep);
    run := Extend(cfg, run, MainStep);
  }

  /** ... and for every result of the handler the signal it asks for follows. */
  lemma SignalFollows(cfg: Setting, n: nat, err: Option<Error>) returns (run: seq<State>)
    requires cfg.design == AS_WRITTEN && cfg.port.caps.inProgresser
    ensures IsRun(cfg, run)
    ensures run[|run| - 1].log == AfterHandler(Wrap(RetryAck(cfg.policy), Base([], err)), Some(cfg.port), Beats(n)).0
    ensures Terminals(run[|run| - 1].log) == 1 && run[|run| - 1].cancelled
  {
    var before := KeepAliveReturns(cfg, n, err);
    run := Extend(cfg, before, MainStep);
    assert AfterHandler(Base([], err), Some(cfg.port), Beats(n)) == (Beats(n), err);
    AckTrace(cfg, run);
  }

  /** The heartbeat can always give back the mutex. */
  lemma Releases(cfg: Setting, run: seq<State>) returns (longer: seq<State>)
    requires Guarded(cfg.design) && IsRun(cfg, run)
    ensures IsRun(cfg, longer) && run <= longer && longer[|longer| - 1].mutex != Heart
    ensures longer[|longer| - 1].pc == run[|run| - 1].pc
    ensures longer[|longer| - 1].heart
         == if run[|run| - 1].heart in {Waiting, Ticked, Quit} then run[|run| - 1].heart else Waiting
    ensures longer[|longer| - 1].cancelled == run[|run| - 1].cancelled && run[|run| - 1].log <= longer[|longer| - 1].log
  {
    InvRun(cfg, run);
    longer := run;
    if longer[|longer| - 1].heart == Inside {
      longer := Extend(cfg, longer, Test);
    }
    if longer[|longer| - 1].heart == Beating {
      longer := Extend(cfg, longer, Beat);
    }
    if longer[|longer| - 1].heart == Unlocking {
      longer := Extend(cfg, longer, Leave);
    }
    InvRun(cfg, longer);
  }

  /** From every reachable state the handler's goroutine can go on to its end. */
  lemma {:induction false} MainFinishes(cfg: Setting, run: seq<State>) returns (longer: seq<State>)
    requires cfg.design == AS_WRITTEN && IsRun(cfg, run)
    ensures IsRun(cfg, longer) && run <= longer && longer[|longer| - 1].pc == 6
    decreases 6 - run[|run| - 1].pc
  {
    InvRun(cfg, run);
    if run[|run| - 1].pc == 6 {
      longer := run;
    } else {
      var free := Releases(cfg, run);
      InvRun(cfg, free);
      var next := Extend(cfg, free, if free[|free| - 1].pc == 0 then NextReturns(None) else MainStep);
      longer := MainFinishes(cfg, next);
    }
  }

  /** stop() has been called by the time the handler's goroutine is done. */
  lemma {:induction false} StoppedAtEnd(cfg: Setting, run: seq<State>)
    requires cfg.design == AS_WRITTEN && IsRun(cfg, run)
    ensures run[|run| - 1].pc >= 5 ==> run[|run| - 1].cancelled
    decreases |run|
  {
    if |run| == 1 {
    } else {
      var before, e := LastEvent(cfg, run);
      StoppedAtEnd(cfg, before);
    }
  }

  /** The heartbeat's goroutine ends only after its context has. */
  lemma {:induction false} QuitsWhenCancelled(cfg: Setting, run: seq<State>)
    requires IsRun(cfg, run)
    ensures run[|run| - 1].heart == Quit ==> run[|run| - 1].cancelled
    decreases |run|
  {
    if |run| == 1 {
    } else {
      var before, e := LastEvent(cfg, run);
      QuitsWhenCancelled(cfg, before);
    }
  }

  /** While the handler runs and the context is live, one more heartbeat can always be sent. */
  lemma CanBeatAgain(cfg: Setting, run: seq<State>) returns (longer: seq<State>)
    requires cfg.design == AS_WRITTEN && cfg.port.caps.inProgresser && IsRun(cfg, run)
    requires run[|run| - 1].pc == 0 && !run[|run| - 1].cancelled
    ensures IsRun(cfg, longer) && run <= longer && longer[|longer| - 1].pc == 0
    ensures run[|run| - 1].log < longer[|longer| - 1].log
  {
    longer := Releases(cfg, run);
    QuitsWhenCancelled(cfg, longer);
    InvRun(cfg, longer);
    if longer[|longer| - 1].heart == Waiting {
      longer := Extend(cfg, longer, Tick);
    }
    longer := Extend(cfg, longer, Enter);
    longer := Extend(cfg, longer, Test);
    longer := Extend(cfg, longer, Beat);
  }

  /** The end of the outer context ends the heartbeat too, while the handler still runs. */
  lemma ContextEndsHeartbeat(cfg: Setting) returns (run: seq<State>)
    ensures IsRun(cfg, run) && run[|run| - 1].pc == 0 && run[|run| - 1].heart == Quit
  {
    run := [State(0, Waiting, Nobody, false, false, None, [])];
    run := Extend(cfg, run, CtxDone);
    run := Extend(cfg, run, Exit);
  }

  /** No goroutine is left behind: both can go on to their ends from every reachable state. */
  lemma BothFinish(cfg: Setting, run: seq<State>) returns (longer: seq<State>)
    requires cfg.design == AS_WRITTEN && IsRun(cfg, run)
    ensures IsRun(cfg, longer) && run <= longer
    ensures longer[|longer| - 1].pc == 6 && longer[|longer| - 1].heart == Quit
  {
    longer := MainFinishes(cfg, run);
    StoppedAtEnd(cfg, longer);
    longer := Releases(cfg, longer);
    InvRun(cfg, longer);
    if longer[|longer| - 1].heart == Ticked {
      longer := Extend(cfg, longer, Enter);
      longer := Releases(cfg, longer);
    }
    if longer[|longer| - 1].heart != Quit {
      InvRun(cfg, longer);
      longer := Extend(cfg, longer, Exit);
    }
  }

  // ---------------------------------------------------------------------------
  // Every other design has an unsafe run
  // ---------------------------------------------------------------------------

  /** Without the capability no heartbeat reaches the acker, so at most one call does. */
  predicate Mute(cfg: Setting, s: State) {
    && s.pc <= 6 && |s.log| <= 1
    && (s.pc <= (if cfg.design.retryOutside then 5 else 1) ==> s.log == [])
  }

  lemma MuteStep(cfg: Setting, s: State, e: Event)
    requires !cfg.port.caps.inProgresser && Mute(cfg, s) && Enabled(cfg, s, e)
    ensures Mute(cfg, Apply(cfg, s, e))
  {
    if e.Beat? {
      assert Sent(cfg.port, InProgress) == [];
    }
  }

  lemma {:induction false} MuteRun(cfg: Setting, run: seq<State>)
    requires !cfg.port.caps.inProgresser && IsRun(cfg, run)
    ensures Mute(cfg, run[|run| - 1])
    decreases |run|
  {
    if |run| == 1 {
    } else {
      var before, e := LastEvent(cfg, run);
      MuteRun(cfg, before);
      MuteStep(cfg, before[|before| - 1], e);
    }
  }

  lemma BeatAfterAck(log: seq<Call>)
    requires log == [Ack, InProgress]
    ensures !SafeTrace(log)
  {
    assert log[..1][0] == Ack;
  }

  /** RetryAck inside KeepAlive: the ack is sent before `stopped` is set. */
  lemma LateBeatInside(cfg: Setting) returns (run: seq<State>)
    requires !cfg.design.retryOutside && cfg.port.caps.inProgresser
    ensures IsRun(cfg, run) && !SafeTrace(run[|run| - 1].log)
  {
    run := [State(0, Waiting, Nobody, false, false, None, [])];
    run := Extend(cfg, run, NextReturns(None));
    run := Extend(cfg, run, MainStep);
    assert run[|run| - 1].log == [Ack];
    run := Extend(cfg, run, Tick);
    run := Extend(cfg, run, Enter);
    run := Extend(cfg, run, Test);
    run := Extend(cfg, run, Beat);
    BeatAfterAck(run[|run| - 1].log);
  }

  /** No look at `stopped`: stop() alone does not keep a pending tick from beating. */
  lemma LateBeatUnchecked(cfg: Setting) returns (run: seq<State>)
    requires cfg.design.retryOutside && !cfg.design.checksStopped && cfg.port.caps.inProgresser
    ensures IsRun(cfg, run) && !SafeTrace(run[|run| - 1].log)
  {
    run := FinishMain(cfg, [State(0, Waiting, Nobody, false, false, None, [])]);
    run := Extend(cfg, run, Tick);
    run := Extend(cfg, run, Enter);
    run := Extend(cfg, run, Test);
    run := Extend(cfg, run, Beat);
    BeatAfterAck(run[|run| - 1].log);
  }

  /** No mutex: the look at `stopped` and the beat are not one step. */
  lemma LateBeatUnlocked(cfg: Setting) returns (run: seq<State>)
    requires cfg.design.retryOutside && cfg.design.checksStopped && !cfg.design.takesMutex && cfg.port.caps.inProgresser
    ensures IsRun(cfg, run) && !SafeTrace(run[|run| - 1].log)
  {
    run := [State(0, Waiting, Nobody, false, false, None, [])];
    run := Extend(cfg, run, Tick);
    run := Extend(cfg, run, Enter);
    run := Extend(cfg, run, Test);
    run := FinishMain(cfg, run);
    run := Extend(cfg, run, Beat);
    BeatAfterAck(run[|run| - 1].log);
  }

  /** The handler's goroutine runs to its end while the heartbeat does not move. */
  lemma FinishMain(cfg: Setting, start: seq<State>) returns (run: seq<State>)
    requires cfg.design.retryOutside && IsRun(cfg, start)
    requires start[|start| - 1].pc == 0 && start[|start| - 1].mutex == Nobody
    ensures IsRun(cfg, run)
    ensures run[|run| - 1] == start[|start| - 1].(pc := 6, stopped := true, err := None,
                                                   cancelled := start[|start| - 1].cancelled || cfg.design.stops,
                                                   log := start[|start| - 1].log + [Ack])
  {
    run := Extend(cfg, start, NextReturns(None));
    run := Extend(cfg, run, MainStep);
    run := Extend(cfg, run, MainStep);
    run := Extend(cfg, run, MainStep);
    run := Extend(cfg, run, MainStep);
    run := Extend(cfg, run, MainStep);
  }

  /**
   * A design is safe exactly if RetryAck is outside, the heartbeat looks at `stopped` and both sides
   * take the mutex, or if heartbeats never reach the acker anyway; stop() has no part in it.
   */
  lemma SafeExactly(cfg: Setting)
    ensures Safe(cfg) <==> (Guarded(cfg.design) || !cfg.port.caps.inProgresser)
  {
    if !cfg.port.caps.inProgresser {
      forall run: seq<State> | IsRun(cfg, run) ensures SafeTrace(run[|run| - 1].log) {
        MuteRun(cfg, run);
      }
    } else if Guarded(cfg.design) {
      forall run: seq<State> | IsRun(cfg, run) ensures SafeTrace(run[|run| - 1].log) {
        InvRun(cfg, run);
      }
    } else if !cfg.design.retryOutside {
      var run := LateBeatInside(cfg);
    } else if !cfg.design.checksStopped {
      var run := LateBeatUnchecked(cfg);
    } else {
      var run := LateBeatUnlocked(cfg);
    }
  }
}
