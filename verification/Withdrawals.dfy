/**
 * Core NATS subscriptions seen from the calls: a message published at one step of a run while a call
 * serves, and what the server does after a call has unsubscribed at another.
 */
module Withdrawals {
  import opened Core
  import opened Readiness

  /** The i-th step of the run is this event. */
  ghost predicate StepAt(cfg: Setting, run: seq<State>, i: nat, e: Event) {
    i + 1 < |run| && Enabled(cfg, run[i], e) && run[i + 1] == Apply(cfg, run[i], e)
  }

  // ---------------------------------------------------------------------------
  // Published while serving
  // ---------------------------------------------------------------------------

  lemma {:induction false} IssuedStays(cfg: Setting, run: seq<State>, from: nat, m: Msg)
    requires IsRun(cfg, run) && from < |run| && m in run[from].issued
    ensures m in run[|run| - 1].issued && run[|run| - 1].issued[m] == run[from].issued[m]
    decreases |run|
  {
    if from == |run| - 1 {
    } else {
      var before, e := LastEvent(cfg, run);
      assert before[from] == run[from];
      IssuedStays(cfg, before, from, m);
    }
  }

  /** Whoever had returned when a message was routed is still returned. */
  ghost predicate ReturnedStay(s: State) {
    forall r, sid | r in s.routes && sid in r.returned :: StageOf(s, sid).Returned?
  }

  lemma ReturnedStayStep(cfg: Setting, s: State, e: Event, s': State)
    requires ReturnedStay(s) && Enabled(cfg, s, e) && s' == Apply(cfg, s, e)
    ensures ReturnedStay(s')
  {
    forall r, sid | r in s'.routes && sid in r.returned ensures StageOf(s', sid).Returned? {
      if r in s.routes {
        ReturnedIsFinal(cfg, s, e, sid);
      } else {
        assert sid in ReturnedCalls(s);
        ReturnedIsFinal(cfg, s, e, sid);
      }
    }
  }

  lemma {:induction false} ReturnedStayRun(cfg: Setting, run: seq<State>)
    requires IsRun(cfg, run)
    ensures ReturnedStay(run[|run| - 1])
    decreases |run|
  {
    if |run| == 1 {
    } else {
      var before, e := LastEvent(cfg, run);
      ReturnedStayRun(cfg, before);
      ReturnedStayStep(cfg, before[|before| - 1], e, run[|run| - 1]);
    }
  }

  /**
   * A message published at a step at which a call was serving, on whatever connection, has been
   * routed exactly once when it is on no connection any more, and that route reaches the call if it
   * has not returned since.
   */
  lemma PublishedWhileServing(cfg: Setting, run: seq<State>, i: nat, c: nat, m: Msg, sid: Sid)
    requires IsRun(cfg, run) && cfg.flushes && StepAt(cfg, run, i, Publish(c, m))
    requires StageOf(run[i], sid).Serving? && Wants(cfg, sid, m)
    requires NotQueued(run[|run| - 1], m) && !StageOf(run[|run| - 1], sid).Returned?
    ensures var routes := RoutesOf(run[|run| - 1].routes, m);
            |routes| == 1 && routes[0].m == m && Reached(cfg, sid, routes[0].to)
  {
    var s := run[|run| - 1];
    assert sid in ServingCalls(run[i]);
    IssuedStays(cfg, run, i + 1, m);
    PublishAfterReadyArrives(cfg, run, m, sid);
    ReturnedStayRun(cfg, run);
    RoutesMembers(s.routes, m);
    var r := RoutesOf(s.routes, m)[0];
    assert r in RoutesOf(s.routes, m);
  }

  /** Both error paths exist: subscribing fails before anything is written, or the flush fails. */
  lemma ErrorPaths(cfg: Setting, sid: Sid, unsubscribed: bool) returns (early: seq<State>, late: seq<State>)
    ensures IsRun(cfg, early) && CallOf(early[|early| - 1], sid) == Call(Returned(true), 0)
    ensures early[|early| - 1].conns == map[]
    ensures cfg.flushes ==>
              && IsRun(cfg, late) && CallOf(late[|late| - 1], sid) == Call(Returned(true), 0)
              && ConnOf(late[|late| - 1], cfg.conn(sid)).buffer
                 == [Sub(sid), Ping(sid)] + if unsubscribed then [Unsub(sid)] else []
  {
    var start := [State(map[], map[], map[], [])];
    early := Extend(cfg, start, SubscribeFails(sid));
    late := start;
    if cfg.flushes {
      late := Extend(cfg, late, Subscribe(sid));
      late := Extend(cfg, late, BeginFlush(sid));
      late := Extend(cfg, late, FlushFails(sid, unsubscribed));
    }
  }

  // ---------------------------------------------------------------------------
  // Unsubscribed
  // ---------------------------------------------------------------------------

  /** The server does not hold the subscription and no frame on the connection brings it back. */
  predicate Gone(x: Conn, sid: Sid) {
    sid !in x.held && Sub(sid) !in Queue(x)
  }

  /** ... or a frame on the connection will withdraw it for good. */
  ghost predicate Going(x: Conn, sid: Sid) {
    Gone(x, sid) || exists p: nat :: WithdrawsAt(Queue(x), sid, p)
  }

  predicate WithdrawsAt(q: seq<Frame>, sid: Sid, p: nat) {
    p < |q| && q[p] == Unsub(sid) && forall i | p <= i < |q| :: q[i] != Sub(sid)
  }

  lemma PushGoes(x: Conn, sid: Sid, f: Frame)
    requires Going(x, sid) && f != Sub(sid)
    ensures Going(x.(buffer := x.buffer + [f]), sid)
    ensures Gone(x, sid) ==> Gone(x.(buffer := x.buffer + [f]), sid)
  {
    var y := x.(buffer := x.buffer + [f]);
    assert Queue(y) == Queue(x) + [f];
    if p: nat :| WithdrawsAt(Queue(x), sid, p) {
      assert WithdrawsAt(Queue(y), sid, p);
    }
  }

  lemma UnsubPushed(x: Conn, sid: Sid)
    ensures Going(x.(buffer := x.buffer + [Unsub(sid)]), sid)
  {
    var y := x.(buffer := x.buffer + [Unsub(sid)]);
    assert Queue(y) == Queue(x) + [Unsub(sid)];
    assert WithdrawsAt(Queue(y), sid, |Queue(x)|);
  }

  lemma PopGoes(x: Conn, y: Conn, sid: Sid)
    requires Going(x, sid) && x.wire != [] && y.wire == x.wire[1..] && y.buffer == x.buffer
    requires y.held == match x.wire[0]
                       case Sub(other) => x.held + {other}
                       case Unsub(other) => x.held - {other}
                       case _ => x.held
    ensures Going(y, sid) && (Gone(x, sid) ==> Gone(y, sid))
  {
    var q, q' := Queue(x), Queue(y);
    assert q == [x.wire[0]] + q';
    assert forall f | f in q' :: f in q;
    assert x.wire[0] in q;
    if Gone(x, sid) {
    } else {
      var p: nat :| WithdrawsAt(q, sid, p);
      if p == 0 {
        assert forall i | 0 <= i < |q'| :: q'[i] == q[i + 1];
        assert Gone(y, sid);
      } else {
        assert forall i | 0 <= i < |q'| :: q'[i] == q[i + 1];
        assert WithdrawsAt(q', sid, p - 1);
      }
    }
  }

  lemma WriteGoes(s: State, d: nat, f: Frame, c: nat, sid: Sid, s': State)
    requires s'.conns == Write(s, d, f).conns && f != Sub(sid) && Going(ConnOf(s, c), sid)
    ensures Going(ConnOf(s', c), sid) && (Gone(ConnOf(s, c), sid) ==> Gone(ConnOf(s', c), sid))
  {
    if d == c {
      PushGoes(ConnOf(s, c), sid, f);
    }
  }

  lemma DrainGoes(x: Conn, y: Conn, sid: Sid)
    requires Going(x, sid) && x.buffer != [] && y == x.(buffer := x.buffer[1..], wire := x.wire + [x.buffer[0]])
    ensures Going(y, sid) && (Gone(x, sid) ==> Gone(y, sid))
  {
    assert x.buffer == [x.buffer[0]] + x.buffer[1..];
    assert Queue(y) == Queue(x);
  }

  /** Steps that write a frame. */
  lemma WritesGoOn(cfg: Setting, s: State, e: Event, sid: Sid, c: nat, s': State)
    requires Enabled(cfg, s, e) && s' == Apply(cfg, s, e) && StageOf(s, sid).Returned?
    requires !e.Drain? && !e.ServerReads? && Going(ConnOf(s, c), sid)
    ensures Going(ConnOf(s', c), sid) && (Gone(ConnOf(s, c), sid) ==> Gone(ConnOf(s', c), sid))
  {
    match e
    case Publish(d, m) => WriteGoes(s, d, Pub(m), c, sid, s');
    case Subscribe(other) => WriteGoes(s, cfg.conn(other), Sub(other), c, sid, s');
    case BeginFlush(other) => WriteGoes(s, cfg.conn(other), Ping(other), c, sid, s');
    case FlushFails(other, unsubscribed) =>
      if unsubscribed {
        WriteGoes(s, cfg.conn(other), Unsub(other), c, sid, s');
      }
    case CtxDone(other, unsubscribed) =>
      if unsubscribed {
        WriteGoes(s, cfg.conn(other), Unsub(other), c, sid, s');
      }
    case _ =>
  }

  /** A call that has returned writes nothing more, so what is going goes on going. */
  lemma GoesOn(cfg: Setting, s: State, e: Event, sid: Sid, c: nat, s': State)
    requires Enabled(cfg, s, e) && s' == Apply(cfg, s, e) && StageOf(s, sid).Returned?
    requires Going(ConnOf(s, c), sid)
    ensures Going(ConnOf(s', c), sid) && (Gone(ConnOf(s, c), sid) ==> Gone(ConnOf(s', c), sid))
  {
    match e
    case Drain(d) =>
      if d == c {
        DrainGoes(ConnOf(s, c), ConnOf(s', c), sid);
      }
    case ServerReads(d, to) =>
      if d == c {
        PopGoes(ConnOf(s, c), ConnOf(s', c), sid);
      }
    case _ => WritesGoOn(cfg, s, e, sid, c, s');
  }

  /** The call returns at this step, its Unsubscribe having succeeded. */
  ghost predicate UnsubscribesAt(cfg: Setting, run: seq<State>, i: nat, sid: Sid) {
    StepAt(cfg, run, i, CtxDone(sid, true)) || StepAt(cfg, run, i, FlushFails(sid, true))
  }

  lemma {:induction false} GoingRun(cfg: Setting, run: seq<State>, i: nat, sid: Sid)
    requires IsRun(cfg, run) && UnsubscribesAt(cfg, run, i, sid)
    ensures StageOf(run[|run| - 1], sid).Returned? && Going(ConnOf(run[|run| - 1], cfg.conn(sid)), sid)
    decreases |run|
  {
    if i + 2 == |run| {
      UnsubPushed(ConnOf(run[i], cfg.conn(sid)), sid);
    } else {
      var before, e := LastEvent(cfg, run);
      assert before[i] == run[i] && before[i + 1] == run[i + 1];
      GoingRun(cfg, before, i, sid);
      GoesOn(cfg, before[|before| - 1], e, sid, cfg.conn(sid), run[|run| - 1]);
      ReturnedIsFinal(cfg, before[|before| - 1], e, sid);
    }
  }

  /**
   * From every state after a call has unsubscribed the server can get to no longer hold it, without
   * any call moving.
   */
  lemma CanBeWithdrawn(cfg: Setting, run: seq<State>, i: nat, sid: Sid) returns (longer: seq<State>)
    requires IsRun(cfg, run) && UnsubscribesAt(cfg, run, i, sid)
    ensures IsRun(cfg, longer) && run <= longer && longer[|longer| - 1].calls == run[|run| - 1].calls
    ensures !Held(cfg, longer[|longer| - 1], sid) && Gone(ConnOf(longer[|longer| - 1], cfg.conn(sid)), sid)
  {
    longer := ServeAll(cfg, run, cfg.conn(sid));
    assert run[i] == longer[i] && run[i + 1] == longer[i + 1];
    GoingRun(cfg, longer, i, sid);
  }

  /** No route from the n-th on contains the call. */
  predicate NoneTo(routes: seq<Route>, n: nat, sid: Sid) {
    forall k | n <= k < |routes| :: sid !in routes[k].to
  }

  /** Once that is so it stays so, and no later route contains the call. */
  lemma {:induction false} WithdrawnForGood(cfg: Setting, run: seq<State>, from: nat, sid: Sid)
    requires IsRun(cfg, run) && from < |run| && StageOf(run[from], sid).Returned?
    requires Gone(ConnOf(run[from], cfg.conn(sid)), sid)
    ensures !Held(cfg, run[|run| - 1], sid) && run[from].routes <= run[|run| - 1].routes
    ensures Gone(ConnOf(run[|run| - 1], cfg.conn(sid)), sid) && StageOf(run[|run| - 1], sid).Returned?
    ensures NoneTo(run[|run| - 1].routes, |run[from].routes|, sid)
    decreases |run|
  {
    if from == |run| - 1 {
    } else {
      var before, e := LastEvent(cfg, run);
      assert before[from] == run[from];
      WithdrawnForGood(cfg, before, from, sid);
      GoesOn(cfg, before[|before| - 1], e, sid, cfg.conn(sid), run[|run| - 1]);
      ReturnedIsFinal(cfg, before[|before| - 1], e, sid);
    }
  }

}
