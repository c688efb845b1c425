/**
 * Readiness in queue groups: Unsubscribe is not flushed, so the server may still choose a member of
 * the group whose call has returned.
 */
module QueueGroups {
  import opened Core
  import opened Readiness

  /** A call that takes a message meant for sid: sid itself, or a member of its queue group. */
  predicate StandsFor(cfg: Setting, member: Sid, sid: Sid) {
    member == sid || (cfg.group(sid).Some? && cfg.group(member) == cfg.group(sid))
  }

  /** The one route of a message led to a call that had not returned, unless sid itself had. */
  ghost predicate ArrivedLive(cfg: Setting, s: State, m: Msg, sid: Sid) {
    var routes := RoutesOf(s.routes, m);
    && |routes| == 1
    && (sid in routes[0].returned
        || exists member :: member in routes[0].to && member !in routes[0].returned && StandsFor(cfg, member, sid))
  }

  /** In a run that ends so, m was published while sid served and has left all connections. */
  ghost predicate Settled(cfg: Setting, run: seq<State>, m: Msg, sid: Sid) {
    && IsRun(cfg, run) && NotQueued(run[|run| - 1], m)
    && m in run[|run| - 1].issued && sid in run[|run| - 1].issued[m]
  }

  /** In all runs a message published while sid serves reaches a call that has not returned. */
  ghost predicate AlwaysLive(cfg: Setting, m: Msg, sid: Sid) {
    forall run: seq<State> | Settled(cfg, run, m, sid) :: ArrivedLive(cfg, run[|run| - 1], m, sid)
  }

  /** The call has no queue group, or no other call of its group wants the message. */
  ghost predicate Alone(cfg: Setting, m: Msg, sid: Sid) {
    cfg.group(sid).None? ||
    forall other: Sid | other != sid && cfg.group(other) == cfg.group(sid) :: !Wants(cfg, other, m)
  }

  lemma ArrivesIfAlone(cfg: Setting, run: seq<State>, m: Msg, sid: Sid)
    requires cfg.flushes && Wants(cfg, sid, m) && Alone(cfg, m, sid) && Settled(cfg, run, m, sid)
    ensures ArrivedLive(cfg, run[|run| - 1], m, sid)
    ensures var r := RoutesOf(run[|run| - 1].routes, m)[0]; sid in r.to || sid in r.returned
  {
    var s := run[|run| - 1];
    PublishAfterReadyArrives(cfg, run, m, sid);
    InvRun(cfg, run);
    RoutesMembers(s.routes, m);
    var r := RoutesOf(s.routes, m)[0];
    assert r in RoutesOf(s.routes, m) && RouteOk(cfg, s, r);
    if sid !in r.returned && cfg.group(sid).Some? {
      var member :| SoleMember(cfg, cfg.group(sid).value, r.to, member);
      assert member == sid;
    }
  }

  /** In any group it does as long as no other member had returned when the server chose. */
  lemma ArrivesUnlessMemberLeft(cfg: Setting, run: seq<State>, m: Msg, sid: Sid)
    requires cfg.flushes && Wants(cfg, sid, m) && Settled(cfg, run, m, sid)
    ensures var routes := RoutesOf(run[|run| - 1].routes, m);
            && |routes| == 1
            && ((forall other | other in routes[0].returned && StandsFor(cfg, other, sid) :: other == sid) ==>
                 ArrivedLive(cfg, run[|run| - 1], m, sid))
  {
    PublishAfterReadyArrives(cfg, run, m, sid);
    var r := RoutesOf(run[|run| - 1].routes, m)[0];
    if sid !in r.returned {
      assert Reached(cfg, sid, r.to);
      if cfg.group(sid).Some? {
        var member :| SoleMember(cfg, cfg.group(sid).value, r.to, member);
        assert StandsFor(cfg, member, sid);
      } else {
        assert StandsFor(cfg, sid, sid);
      }
    }
  }

  /** From every reachable state the server can get to a message for such a call, without any call moving. */
  lemma CanArriveLive(cfg: Setting, run: seq<State>, m: Msg, sid: Sid) returns (longer: seq<State>)
    requires IsRun(cfg, run) && cfg.flushes && Alone(cfg, m, sid)
    requires m in run[|run| - 1].issued && sid in run[|run| - 1].issued[m] && Wants(cfg, sid, m)
    ensures Settled(cfg, longer, m, sid) && run <= longer && longer[|longer| - 1].calls == run[|run| - 1].calls
    ensures ArrivedLive(cfg, longer[|longer| - 1], m, sid)
  {
    longer := CanArrive(cfg, run, m, sid);
    ArrivesIfAlone(cfg, longer, m, sid);
  }

  // ---------------------------------------------------------------------------
  // A member that has returned
  // ---------------------------------------------------------------------------

  /** No frame is under way, and the server holds the subscriptions of just these calls. */
  ghost predicate Calm(cfg: Setting, s: State, held: set<Sid>) {
    forall c: nat :: CalmConn(cfg, ConnOf(s, c), c, held)
  }

  ghost predicate CalmConn(cfg: Setting, x: Conn, c: nat, held: set<Sid>) {
    x.buffer == [] && x.wire == [] && forall a: Sid :: a in x.held <==> a in held && cfg.conn(a) == c
  }

  /** The two frames of a new call have left the client. */
  lemma Sends(cfg: Setting, run: seq<State>, sid: Sid, c: nat, x: Conn) returns (longer: seq<State>)
    requires IsRun(cfg, run) && cfg.flushes && StageOf(run[|run| - 1], sid) == NotStarted && c == cfg.conn(sid)
    requires x == ConnOf(run[|run| - 1], c) && x.buffer == [] && x.wire == []
    ensures IsRun(cfg, longer)
    ensures var s, s' := run[|run| - 1], longer[|longer| - 1];
            && s'.calls == s.calls[sid := Call(Flushing, 0)] && s'.issued == s.issued && s'.routes == s.routes
            && ConnOf(s', c) == x.(wire := [Sub(sid), Ping(sid)]) && OthersKept(s, s', c)
  {
    InvRun(cfg, run);
    assert CallOk(cfg, run[|run| - 1], sid);
    longer := Extend(cfg, run, Subscribe(sid));
    longer := Extend(cfg, longer, BeginFlush(sid));
    assert ConnOf(longer[|longer| - 1], c) == x.(buffer := [Sub(sid), Ping(sid)]);
    longer := Extend(cfg, longer, Drain(c));
    longer := Extend(cfg, longer, Drain(c));
  }

  /** The server reads them, the pong comes back, and the call serves. */
  lemma Answered(cfg: Setting, run: seq<State>, sid: Sid, c: nat, x: Conn) returns (longer: seq<State>)
    requires IsRun(cfg, run) && cfg.flushes && CallOf(run[|run| - 1], sid) == Call(Flushing, 0) && c == cfg.conn(sid)
    requires x == ConnOf(run[|run| - 1], c) && x.buffer == [] && x.wire == [Sub(sid), Ping(sid)]
    ensures IsRun(cfg, longer)
    ensures var s, s' := run[|run| - 1], longer[|longer| - 1];
            && s'.calls == s.calls[sid := Call(Serving, 1)] && s'.issued == s.issued && s'.routes == s.routes
            && ConnOf(s', c) == Conn([], [], x.pongs + {sid}, x.held + {sid}) && OthersKept(s, s', c)
  {
    longer := Extend(cfg, run, ServerReads(c, {}));
    assert ConnOf(longer[|longer| - 1], c) == x.(wire := [Ping(sid)], held := x.held + {sid});
    longer := Extend(cfg, longer, ServerReads(c, {}));
    longer := Extend(cfg, longer, PongArrives(sid));
    longer := Extend(cfg, longer, FireReady(sid));
  }

  lemma Serves(cfg: Setting, run: seq<State>, sid: Sid, held: set<Sid>) returns (longer: seq<State>)
    requires IsRun(cfg, run) && cfg.flushes && StageOf(run[|run| - 1], sid) == NotStarted
    requires Calm(cfg, run[|run| - 1], held)
    ensures IsRun(cfg, longer) && Calm(cfg, longer[|longer| - 1], held + {sid})
    ensures var s, s' := run[|run| - 1], longer[|longer| - 1];
            s'.calls == s.calls[sid := Call(Serving, 1)] && s'.issued == s.issued && s'.routes == s.routes
  {
    var s, c := run[|run| - 1], cfg.conn(sid);
    assert CalmConn(cfg, ConnOf(s, c), c, held);
    var sent := Sends(cfg, run, sid, c, ConnOf(s, c));
    longer := Answered(cfg, sent, sid, c, ConnOf(sent[|sent| - 1], c));
    var s' := longer[|longer| - 1];
    forall d: nat ensures CalmConn(cfg, ConnOf(s', d), d, held + {sid}) {
      assert CalmConn(cfg, ConnOf(s, d), d, held);
    }
  }

  ghost predicate HeldExactly(cfg: Setting, s: State, held: set<Sid>) {
    forall a: Sid :: Held(cfg, s, a) <==> a in held
  }

  lemma CalmHolds(cfg: Setting, s: State, held: set<Sid>)
    requires Calm(cfg, s, held)
    ensures HeldExactly(cfg, s, held)
  {
    forall a: Sid ensures Held(cfg, s, a) <==> a in held {
      assert CalmConn(cfg, ConnOf(s, cfg.conn(a)), cfg.conn(a), held);
    }
  }

  /** Two calls serve, and then the context of the second one ends. */
  lemma OneLeaves(cfg: Setting, sid: Sid, other: Sid, c: nat) returns (run: seq<State>)
    requires cfg.flushes && other != sid && c != cfg.conn(other)
    ensures IsRun(cfg, run)
    ensures var s := run[|run| - 1];
            && s.calls == map[sid := Call(Serving, 1), other := Call(Returned(false), 1)]
            && s.issued == map[] && s.routes == [] && HeldExactly(cfg, s, {sid, other})
            && ConnOf(s, c).buffer == [] && ConnOf(s, c).wire == []
  {
    run := [State(map[], map[], map[], [])];
    run := Serves(cfg, run, sid, {});
    run := Serves(cfg, run, other, {} + {sid});
    var before := run[|run| - 1];
    assert {} + {sid} + {other} == {sid, other};
    CalmHolds(cfg, before, {sid, other});
    assert CalmConn(cfg, ConnOf(before, c), c, {sid, other});
    run := Extend(cfg, run, CtxDone(other, true));
  }

  /** A third connection publishes while only the first of them serves. */
  lemma PublishesMeanwhile(cfg: Setting, m: Msg, sid: Sid, other: Sid, c: nat) returns (run: seq<State>)
    requires cfg.flushes && other != sid && c != cfg.conn(other)
    ensures IsRun(cfg, run)
    ensures var s := run[|run| - 1];
            && ServingCalls(s) == {sid} && ReturnedCalls(s) == {other}
            && s.issued == map[m := {sid}] && s.routes == [] && HeldExactly(cfg, s, {sid, other})
            && ConnOf(s, c).wire == [Pub(m)]
  {
    run := OneLeaves(cfg, sid, other, c);
    var before := run[|run| - 1];
    assert ServingCalls(before) == {sid} && ReturnedCalls(before) == {other};
    run := Extend(cfg, run, Publish(c, m));
    run := Extend(cfg, run, Drain(c));
  }

  /** The server may choose the member that has returned: the message was settled, but not live. */
  lemma ReturnedMemberChosen(cfg: Setting, m: Msg, sid: Sid, other: Sid) returns (run: seq<State>)
    requires cfg.flushes && other != sid && Wants(cfg, sid, m) && Wants(cfg, other, m)
    requires cfg.group(sid).Some? && cfg.group(other) == cfg.group(sid)
    ensures Settled(cfg, run, m, sid)
    ensures RoutesOf(run[|run| - 1].routes, m) == [Route(m, {other}, {sid}, {other})]
    ensures Arrived(cfg, run[|run| - 1], m, sid) && !ArrivedLive(cfg, run[|run| - 1], m, sid)
  {
    var c := cfg.conn(sid) + cfg.conn(other) + 1;
    var r := Route(m, {other}, {sid}, {other});
    run := PublishesMeanwhile(cfg, m, sid, other, c);
    OneChosen(cfg, run[|run| - 1], m, sid, other);
    run := Extend(cfg, run, ServerReads(c, {other}));
    assert run[|run| - 1].routes == [] + [r];
    RoutesPush([], r, m);
    ConservedRun(cfg, run);
    assert MessageOk(run[|run| - 1], m);
    assert SoleMember(cfg, cfg.group(sid).value, {other}, other);
  }

  lemma OneChosen(cfg: Setting, s: State, m: Msg, sid: Sid, other: Sid)
    requires HeldExactly(cfg, s, {sid, other}) && Wants(cfg, other, m)
    requires cfg.group(sid).Some? && cfg.group(other) == cfg.group(sid)
    ensures Routed(cfg, s, m, {other})
  {
    assert SoleMember(cfg, cfg.group(sid).value, {other}, other);
    assert Held(cfg, s, other);
    forall a: Sid | Held(cfg, s, a) && Wants(cfg, a, m) ensures Reached(cfg, a, {other}) {
      assert a in {sid, other};
    }
  }

  /**
   * A message published while a call serves always reaches a call that has not returned exactly when
   * the call has no queue group or is the only one of its group that wants the message.
   */
  lemma LiveExactly(cfg: Setting, m: Msg, sid: Sid)
    requires cfg.flushes && Wants(cfg, sid, m)
    ensures AlwaysLive(cfg, m, sid) <==> Alone(cfg, m, sid)
  {
    if Alone(cfg, m, sid) {
      forall run: seq<State> | Settled(cfg, run, m, sid) ensures ArrivedLive(cfg, run[|run| - 1], m, sid) {
        ArrivesIfAlone(cfg, run, m, sid);
      }
    } else {
      var other: Sid :| other != sid && cfg.group(other) == cfg.group(sid) && Wants(cfg, other, m);
      var run := ReturnedMemberChosen(cfg, m, sid, other);
      assert Settled(cfg, run, m, sid);
    }
  }
}
