/**
 * Subscription readiness over core NATS: SubscribeWithReady and ServeWithReady calls on any number of
 * connections, the client's write buffer, the flush round trip, the server, and publishers on the
 * same or other connections, as a state machine.
 */
module Readiness {
  import opened Core
  import Subjects

  type Sid = nat   // one SubscribeWithReady or ServeWithReady call
  type Msg = nat   // one published message

  /**
   * What is fixed: whether the calls flush before they report readiness (they do), and for each call
   * its connection, subject pattern and queue group, for each message its subject.
   */
  datatype Setting = Setting(
    flushes: bool,
    conn: Sid -> nat,
    pattern: Sid -> string,
    group: Sid -> Option<string>,
    subject: Msg -> string
  )

  /** Protocol frames from a client to the server; a ping belongs to the flush that sent it. */
  datatype Frame = Sub(sid: Sid) | Unsub(sid: Sid) | Ping(sid: Sid) | Pub(m: Msg)

  /**
   * A connection: frames in the client's write buffer, frames on their way, pongs on their way back,
   * and the subscriptions that the server holds for it.
   */
  datatype Conn = Conn(buffer: seq<Frame>, wire: seq<Frame>, pongs: set<Sid>, held: set<Sid>)

  /**
   * How far a call has come; it is Serving from ready() until its context ends. `failed` says that
   * it returned before ready(), because subscribing or the flush failed.
   */
  datatype Stage = NotStarted | Subscribed | Flushing | Flushed | Serving | Returned(failed: bool)

  datatype Call = Call(stage: Stage, readies: nat)

  /** The server routed a message to these calls; who was serving and who had returned by then. */
  datatype Route = Route(m: Msg, to: set<Sid>, serving: set<Sid>, returned: set<Sid>)

  /** `issued` remembers for each published message which calls were serving at that moment. */
  datatype State = State(
    conns: map<nat, Conn>,
    calls: map<Sid, Call>,
    issued: map<Msg, set<Sid>>,
    routes: seq<Route>
  )

  datatype Event =
    | Subscribe(sid: Sid) | SubscribeFails(sid: Sid)
    | BeginFlush(sid: Sid) | PongArrives(sid: Sid) | FlushFails(sid: Sid, unsubscribed: bool)
    | FireReady(sid: Sid) | CtxDone(sid: Sid, unsubscribed: bool)
    | Publish(c: nat, m: Msg)
    | Drain(c: nat)
    | ServerReads(c: nat, to: set<Sid>)

  function ConnOf(s: State, c: nat): Conn {
    if c in s.conns then s.conns[c] else Conn([], [], {}, {})
  }

  function CallOf(s: State, sid: Sid): Call {
    if sid in s.calls then s.calls[sid] else Call(NotStarted, 0)
  }

  function StageOf(s: State, sid: Sid): Stage {
    CallOf(s, sid).stage
  }

  function ServingCalls(s: State): set<Sid> {
    set sid | sid in s.calls && s.calls[sid].stage.Serving?
  }

  function ReturnedCalls(s: State): set<Sid> {
    set sid | sid in s.calls && s.calls[sid].stage.Returned?
  }

  /** The server holds the call's subscription. */
  predicate Held(cfg: Setting, s: State, sid: Sid) {
    sid in ConnOf(s, cfg.conn(sid)).held
  }

  predicate Wants(cfg: Setting, sid: Sid, m: Msg) {
    Subjects.Matches(cfg.pattern(sid), cfg.subject(m))
  }

  /** The server's routing: every plain matching subscription, and one member of each queue group. */
  ghost predicate Routed(cfg: Setting, s: State, m: Msg, to: set<Sid>) {
    && (forall sid | sid in to :: Held(cfg, s, sid) && Wants(cfg, sid, m))
    && (forall sid | Held(cfg, s, sid) && Wants(cfg, sid, m) :: Reached(cfg, sid, to))
  }

  ghost predicate Reached(cfg: Setting, sid: Sid, to: set<Sid>) {
    match cfg.group(sid)
    case None => sid in to
    case Some(g) => exists member :: SoleMember(cfg, g, to, member)
  }

  ghost predicate SoleMember(cfg: Setting, g: string, to: set<Sid>, member: Sid) {
    && member in to && cfg.group(member) == Some(g)
    && forall other | other in to && cfg.group(other) == Some(g) :: other == member
  }

  ghost predicate Enabled(cfg: Setting, s: State, e: Event) {
    match e
    case Subscribe(sid) => StageOf(s, sid) == NotStarted
    case SubscribeFails(sid) => StageOf(s, sid) == NotStarted
    case BeginFlush(sid) => cfg.flushes && StageOf(s, sid) == Subscribed
    case PongArrives(sid) => StageOf(s, sid) == Flushing && sid in ConnOf(s, cfg.conn(sid)).pongs
    case FlushFails(sid, _) => StageOf(s, sid) == Flushing
    case FireReady(sid) => StageOf(s, sid) == if cfg.flushes then Flushed else Subscribed
    case CtxDone(sid, _) => StageOf(s, sid) == Serving
    case Publish(_, m) => m !in s.issued
    case Drain(c) => ConnOf(s, c).buffer != []
    case ServerReads(c, to) =>
      var wire := ConnOf(s, c).wire;
      wire != [] && (wire[0].Pub? ==> Routed(cfg, s, wire[0].m, to))
  }

  function At(s: State, sid: Sid, stage: Stage): State {
    s.(calls := s.calls[sid := CallOf(s, sid).(stage := stage)])
  }

  function WithConn(s: State, c: nat, x: Conn): State {
    s.(conns := s.conns[c := x])
  }

  function Write(s: State, c: nat, f: Frame): State {
    var x := ConnOf(s, c);
    WithConn(s, c, x.(buffer := x.buffer + [f]))
  }

  /** The server takes the first frame of a connection. */
  function Serve(s: State, c: nat, to: set<Sid>): State
    requires ConnOf(s, c).wire != []
  {
    var x := ConnOf(s, c);
    var rest := x.(wire := x.wire[1..]);
    match x.wire[0]
    case Sub(sid) => WithConn(s, c, rest.(held := x.held + {sid}))
    case Unsub(sid) => WithConn(s, c, rest.(held := x.held - {sid}))
    case Ping(sid) => WithConn(s, c, rest.(pongs := x.pongs + {sid}))
    case Pub(m) =>
      WithConn(s, c, rest).(routes := s.routes + [Route(m, to, ServingCalls(s), ReturnedCalls(s))])
  }

  ghost function Apply(cfg: Setting, s: State, e: Event): State
    requires Enabled(cfg, s, e)
  {
    match e
    case Subscribe(sid) => Write(At(s, sid, Subscribed), cfg.conn(sid), Sub(sid))
    case SubscribeFails(sid) => At(s, sid, Returned(true))
    case BeginFlush(sid) => Write(At(s, sid, Flushing), cfg.conn(sid), Ping(sid))
    case PongArrives(sid) => At(s, sid, Flushed)
    case FlushFails(sid, unsubscribed) =>
      var s' := At(s, sid, Returned(true));
      if unsubscribed then Write(s', cfg.conn(sid), Unsub(sid)) else s'
    case FireReady(sid) =>
      s.(calls := s.calls[sid := Call(Serving, CallOf(s, sid).readies + 1)])
    case CtxDone(sid, unsubscribed) =>
      var s' := At(s, sid, Returned(false));
      if unsubscribed then Write(s', cfg.conn(sid), Unsub(sid)) else s'
    case Publish(c, m) => Write(s, c, Pub(m)).(issued := s.issued[m := ServingCalls(s)])
    case Drain(c) =>
      var x := ConnOf(s, c);
      WithConn(s, c, x.(buffer := x.buffer[1..], wire := x.wire + [x.buffer[0]]))
    case ServerReads(c, to) => Serve(s, c, to)
  }

  ghost predicate Init(s: State) {
    s == State(map[], map[], map[], [])
  }

  ghost predicate Next(cfg: Setting, s: State, s': State) {
    exists e :: Enabled(cfg, s, e) && s' == Apply(cfg, s, e)
  }

  ghost predicate IsRun(cfg: Setting, run: seq<State>) {
    && |run| > 0 && Init(run[0])
    && forall i :: 0 <= i < |run| - 1 ==> Next(cfg, run[i], run[i + 1])
  }

  // ---------------------------------------------------------------------------
  // Invariant
  // ---------------------------------------------------------------------------

  /** The frames of a connection in the order in which the server will read them. */
  function Queue(x: Conn): seq<Frame> {
    x.wire + x.buffer
  }

  /** A subscription is held, or its frame comes before position i. */
  predicate Ahead(x: Conn, sid: Sid, i: nat)
    requires i <= |Queue(x)|
  {
    sid in x.held || Sub(sid) in Queue(x)[..i]
  }

  predicate Active(stage: Stage) {
    stage.Subscribed? || stage.Flushing? || stage.Flushed? || stage.Serving?
  }

  /** What a connection looks like for a call at some stage. */
  predicate ConnOk(flushes: bool, x: Conn, sid: Sid, stage: Stage) {
    && (stage.NotStarted? ==> Ping(sid) !in Queue(x) && sid !in x.pongs && Unsub(sid) !in Queue(x))
    && (Active(stage) ==>
         && Unsub(sid) !in Queue(x)
         && Ahead(x, sid, |Queue(x)|)
         && (forall i | 0 <= i < |Queue(x)| && Queue(x)[i] == Ping(sid) :: Ahead(x, sid, i))
         && (sid in x.pongs ==> sid in x.held))
    && (stage.Flushed? || (stage.Serving? && flushes) ==> sid in x.held)
  }

  predicate CallOk(cfg: Setting, s: State, sid: Sid) {
    && ConnOk(cfg.flushes, ConnOf(s, cfg.conn(sid)), sid, StageOf(s, sid))
    && CallOf(s, sid).readies
       == (if StageOf(s, sid).Serving? || StageOf(s, sid) == Returned(false) then 1 else 0)
  }

  /**
   * Nobody who was serving when a message was published was overlooked, unless it had returned; and
   * whoever got the message wants it.
   */
  ghost predicate RouteOk(cfg: Setting, s: State, r: Route) {
    && (forall sid | sid in r.serving && Wants(cfg, sid, r.m) :: Reached(cfg, sid, r.to))
    && (forall sid | sid in r.to :: Wants(cfg, sid, r.m))
    && r.m in s.issued && s.issued[r.m] <= r.serving + r.returned
  }

  ghost predicate PubsIssued(s: State) {
    forall c: nat, m: Msg | Pub(m) in Queue(ConnOf(s, c)) :: m in s.issued
  }

  ghost predicate Inv(cfg: Setting, s: State) {
    && (forall sid: Sid :: CallOk(cfg, s, sid))
    && PubsIssued(s)
    && (forall m | m in s.issued :: s.issued[m] <= ServingCalls(s) + ReturnedCalls(s))
    && (cfg.flushes ==> forall r | r in s.routes :: RouteOk(cfg, s, r))
  }

  // ---------------------------------------------------------------------------
  // Connections
  // ---------------------------------------------------------------------------

  lemma PushKeeps(flushes: bool, x: Conn, f: Frame, sid: Sid, stage: Stage)
    requires ConnOk(flushes, x, sid, stage) && f != Unsub(sid) && f != Ping(sid)
    ensures ConnOk(flushes, x.(buffer := x.buffer + [f]), sid, stage)
  {
    var y := x.(buffer := x.buffer + [f]);
    var q, q' := Queue(x), Queue(y);
    assert q' == q + [f];
    if Active(stage) {
      assert q'[..|q|] == q;
      assert Sub(sid) in q ==> Sub(sid) in q'[..|q'|];
      forall i | 0 <= i < |q'| && q'[i] == Ping(sid) ensures Ahead(y, sid, i) {
        assert i < |q| && q[i] == Ping(sid) && q'[..i] == q[..i];
      }
    }
  }

  lemma SubPushed(flushes: bool, x: Conn, sid: Sid)
    requires ConnOk(flushes, x, sid, NotStarted)
    ensures ConnOk(flushes, x.(buffer := x.buffer + [Sub(sid)]), sid, Subscribed)
  {
    var y := x.(buffer := x.buffer + [Sub(sid)]);
    var q, q' := Queue(x), Queue(y);
    assert q' == q + [Sub(sid)] && q'[..|q'|] == q';
    assert q'[|q|] == Sub(sid);
  }

  lemma PingPushed(flushes: bool, x: Conn, sid: Sid)
    requires ConnOk(flushes, x, sid, Subscribed)
    ensures ConnOk(flushes, x.(buffer := x.buffer + [Ping(sid)]), sid, Flushing)
  {
    var y := x.(buffer := x.buffer + [Ping(sid)]);
    var q, q' := Queue(x), Queue(y);
    assert q' == q + [Ping(sid)] && q'[..|q|] == q && q[..|q|] == q && q'[..|q'|] == q';
    forall i | 0 <= i < |q'| && q'[i] == Ping(sid) ensures Ahead(y, sid, i) {
      if i < |q| {
        assert q[i] == Ping(sid) && q'[..i] == q[..i];
      }
    }
    assert Sub(sid) in q ==> Sub(sid) in q';
  }

  lemma PopKeeps(flushes: bool, x: Conn, y: Conn, sid: Sid, stage: Stage)
    requires ConnOk(flushes, x, sid, stage) && x.wire != []
    requires y.wire == x.wire[1..] && y.buffer == x.buffer
    requires match x.wire[0]
             case Sub(other) => y.held == x.held + {other} && y.pongs == x.pongs
             case Unsub(other) => y.held == x.held - {other} && y.pongs == x.pongs
             case Ping(other) => y.held == x.held && y.pongs == x.pongs + {other}
             case Pub(_) => y.held == x.held && y.pongs == x.pongs
    ensures ConnOk(flushes, y, sid, stage)
  {
    var q, q' := Queue(x), Queue(y);
    assert q == [x.wire[0]] + q';
    assert forall f | f in q' :: f in q;
    if Active(stage) {
      assert x.wire[0] in q;
      if x.wire[0] == Ping(sid) {
        assert q[0] == Ping(sid) && Ahead(x, sid, 0) && q[..0] == [];
      }
      PopAhead(x, y, sid, |q'|);
      forall i | 0 <= i < |q'| && q'[i] == Ping(sid) ensures Ahead(y, sid, i) {
        assert q[i + 1] == Ping(sid) && Ahead(x, sid, i + 1);
        PopAhead(x, y, sid, i);
      }
    }
  }

  lemma PopAhead(x: Conn, y: Conn, sid: Sid, i: nat)
    requires x.wire != [] && y.wire == x.wire[1..] && y.buffer == x.buffer && i <= |Queue(y)|
    requires i + 1 <= |Queue(x)| && Ahead(x, sid, i + 1)
    requires sid in x.held ==> sid in y.held
    requires x.wire[0] == Sub(sid) ==> sid in y.held
    ensures Ahead(y, sid, i)
  {
    var q, q' := Queue(x), Queue(y);
    assert q == [x.wire[0]] + q';
    assert q[..i + 1] == [x.wire[0]] + q'[..i];
  }

  // ---------------------------------------------------------------------------
  // Every step keeps the invariant
  // ---------------------------------------------------------------------------

  lemma WriteKeepsOthers(cfg: Setting, s: State, c: nat, f: Frame, sid: Sid)
    requires CallOk(cfg, s, sid) && f != Unsub(sid) && f != Ping(sid)
    ensures CallOk(cfg, Write(s, c, f), sid)
  {
    if cfg.conn(sid) == c {
      PushKeeps(cfg.flushes, ConnOf(s, c), f, sid, StageOf(s, sid));
    }
  }

  lemma WriteKeepsPubs(s: State, c: nat, f: Frame)
    requires PubsIssued(s) && (f.Pub? ==> f.m in s.issued)
    ensures PubsIssued(Write(s, c, f))
  {
    var s' := Write(s, c, f);
    forall d: nat, m: Msg | Pub(m) in Queue(ConnOf(s', d)) ensures m in s'.issued {
      if d == c {
        assert Queue(ConnOf(s', c)) == Queue(ConnOf(s, c)) + [f];
      } else {
        assert ConnOf(s', d) == ConnOf(s, d);
      }
    }
  }

  lemma SameConnsKeepPubs(s: State, s': State)
    requires PubsIssued(s) && s'.conns == s.conns && s.issued.Keys <= s'.issued.Keys
    ensures PubsIssued(s')
  {
    forall d: nat, m: Msg | Pub(m) in Queue(ConnOf(s', d)) ensures m in s'.issued {
      assert ConnOf(s', d) == ConnOf(s, d);
    }
  }

  /** A call moves on to a stage; serving calls only ever go on to return. */
  lemma MoveKeepsIssued(s: State, s': State, sid: Sid)
    requires forall m | m in s.issued :: s.issued[m] <= ServingCalls(s) + ReturnedCalls(s)
    requires s'.issued == s.issued && s'.calls.Keys == s.calls.Keys + {sid}
    requires forall other | other in s.calls && other != sid :: s'.calls[other] == s.calls[other]
    requires StageOf(s, sid).Serving? || StageOf(s, sid).Returned? ==>
               s'.calls[sid].stage.Serving? || s'.calls[sid].stage.Returned?
    ensures forall m | m in s'.issued :: s'.issued[m] <= ServingCalls(s') + ReturnedCalls(s')
  {
    forall m | m in s'.issued ensures s'.issued[m] <= ServingCalls(s') + ReturnedCalls(s') {
      assert s.issued[m] <= ServingCalls(s) + ReturnedCalls(s);
      assert ServingCalls(s) + ReturnedCalls(s) <= ServingCalls(s') + ReturnedCalls(s');
    }
  }

  /** Steps of one call: it moves to another stage and may write one frame about itself. */
  lemma CallStep(cfg: Setting, s: State, sid: Sid, call: Call, frames: seq<Frame>, s': State)
    requires Inv(cfg, s) && |frames| <= 1
    requires frames != [] ==> frames[0] in {Sub(sid), Unsub(sid), Ping(sid)}
    requires var moved := s.(calls := s.calls[sid := call]);
             s' == if frames == [] then moved else Write(moved, cfg.conn(sid), frames[0])
    requires CallOk(cfg, s', sid)
    requires StageOf(s, sid).Serving? || StageOf(s, sid).Returned? ==> call.stage.Serving? || call.stage.Returned?
    ensures Inv(cfg, s')
  {
    var moved := s.(calls := s.calls[sid := call]);
    forall other: Sid ensures CallOk(cfg, s', other) {
      if other != sid {
        assert CallOk(cfg, s, other) && CallOk(cfg, moved, other);
        if frames != [] {
          WriteKeepsOthers(cfg, moved, cfg.conn(sid), frames[0], other);
        }
      }
    }
    SameConnsKeepPubs(s, moved);
    if frames != [] {
      WriteKeepsPubs(moved, cfg.conn(sid), frames[0]);
    }
    MoveKeepsIssued(s, s', sid);
    assert s'.routes == s.routes && s'.issued == s.issued;
    forall r | cfg.flushes && r in s'.routes ensures RouteOk(cfg, s', r) {
      assert RouteOk(cfg, s, r);
    }
  }

  lemma SubscribeStep(cfg: Setting, s: State, sid: Sid)
    requires Inv(cfg, s) && Enabled(cfg, s, Subscribe(sid))
    ensures Inv(cfg, Apply(cfg, s, Subscribe(sid)))
  {
    assert CallOk(cfg, s, sid);
    SubPushed(cfg.flushes, ConnOf(s, cfg.conn(sid)), sid);
    CallStep(cfg, s, sid, Call(Subscribed, CallOf(s, sid).readies), [Sub(sid)], Apply(cfg, s, Subscribe(sid)));
  }

  lemma BeginFlushStep(cfg: Setting, s: State, sid: Sid)
    requires Inv(cfg, s) && Enabled(cfg, s, BeginFlush(sid))
    ensures Inv(cfg, Apply(cfg, s, BeginFlush(sid)))
  {
    assert CallOk(cfg, s, sid);
    PingPushed(cfg.flushes, ConnOf(s, cfg.conn(sid)), sid);
    CallStep(cfg, s, sid, Call(Flushing, CallOf(s, sid).readies), [Ping(sid)], Apply(cfg, s, BeginFlush(sid)));
  }

  /** A call returns, with or without a frame that withdraws its subscription. */
  lemma ReturnStep(cfg: Setting, s: State, sid: Sid, failed: bool, unsubscribed: bool, s': State)
    requires Inv(cfg, s) && !StageOf(s, sid).Returned? && (StageOf(s, sid).Serving? <==> !failed)
    requires var moved := At(s, sid, Returned(failed));
             s' == if unsubscribed then Write(moved, cfg.conn(sid), Unsub(sid)) else moved
    ensures Inv(cfg, s')
  {
    assert CallOk(cfg, s, sid);
    var frames := if unsubscribed then [Unsub(sid)] else [];
    CallStep(cfg, s, sid, Call(Returned(failed), CallOf(s, sid).readies), frames, s');
  }

  /** A call goes on without writing a frame: the pong has come, or ready is called. */
  lemma AdvanceStep(cfg: Setting, s: State, sid: Sid, call: Call, s': State)
    requires Inv(cfg, s) && s' == s.(calls := s.calls[sid := call])
    requires CallOk(cfg, s, sid) ==> ConnOk(cfg.flushes, ConnOf(s, cfg.conn(sid)), sid, call.stage)
    requires !StageOf(s, sid).Serving? && !StageOf(s, sid).Returned? && !call.stage.Returned?
    requires call.readies == CallOf(s, sid).readies + if call.stage.Serving? then 1 else 0
    ensures Inv(cfg, s')
  {
    assert CallOk(cfg, s, sid);
    CallStep(cfg, s, sid, call, [], s');
  }

  /** The remaining steps of a call. */
  lemma MoveStep(cfg: Setting, s: State, e: Event, s': State)
    requires Inv(cfg, s) && Enabled(cfg, s, e) && s' == Apply(cfg, s, e)
    requires e.SubscribeFails? || e.PongArrives? || e.FlushFails? || e.FireReady? || e.CtxDone?
    ensures Inv(cfg, s')
  {
    match e
    case SubscribeFails(sid) => ReturnStep(cfg, s, sid, true, false, s');
    case FlushFails(sid, unsubscribed) => ReturnStep(cfg, s, sid, true, unsubscribed, s');
    case CtxDone(sid, unsubscribed) => ReturnStep(cfg, s, sid, false, unsubscribed, s');
    case PongArrives(sid) => AdvanceStep(cfg, s, sid, CallOf(s', sid), s');
    case FireReady(sid) => AdvanceStep(cfg, s, sid, CallOf(s', sid), s');
  }

  lemma PublishStep(cfg: Setting, s: State, c: nat, m: Msg)
    requires Inv(cfg, s) && Enabled(cfg, s, Publish(c, m))
    ensures Inv(cfg, Apply(cfg, s, Publish(c, m)))
  {
    var mid := s.(issued := s.issued[m := ServingCalls(s)]);
    var s' := Apply(cfg, s, Publish(c, m));
    assert s' == Write(mid, c, Pub(m));
    SameConnsKeepPubs(s, mid);
    WriteKeepsPubs(mid, c, Pub(m));
    forall sid: Sid ensures CallOk(cfg, s', sid) {
      assert CallOk(cfg, s, sid) && CallOk(cfg, mid, sid);
      WriteKeepsOthers(cfg, mid, c, Pub(m), sid);
    }
    forall r | cfg.flushes && r in s'.routes ensures RouteOk(cfg, s', r) {
      assert RouteOk(cfg, s, r);
    }
  }

  lemma DrainKeepsPubs(s: State, c: nat, s': State)
    requires PubsIssued(s) && s'.issued == s.issued && Queue(ConnOf(s', c)) == Queue(ConnOf(s, c))
    requires forall d: nat | d != c :: ConnOf(s', d) == ConnOf(s, d)
    ensures PubsIssued(s')
  {
  }

  lemma DrainStep(cfg: Setting, s: State, c: nat, s': State)
    requires Inv(cfg, s) && Enabled(cfg, s, Drain(c)) && s' == Apply(cfg, s, Drain(c))
    ensures Inv(cfg, s')
  {
    var x := ConnOf(s, c);
    assert x.buffer == [x.buffer[0]] + x.buffer[1..];
    assert Queue(ConnOf(s', c)) == Queue(x);
    forall sid: Sid ensures CallOk(cfg, s', sid) {
      assert CallOk(cfg, s, sid);
    }
    DrainKeepsPubs(s, c, s');
    forall r | cfg.flushes && r in s'.routes ensures RouteOk(cfg, s', r) {
      assert RouteOk(cfg, s, r);
    }
  }

  /** Whoever is serving when the server routes is held, so the route reaches it. */
  lemma RouteReaches(cfg: Setting, s: State, m: Msg, to: set<Sid>)
    requires Inv(cfg, s) && cfg.flushes && Routed(cfg, s, m, to) && m in s.issued
    ensures RouteOk(cfg, s, Route(m, to, ServingCalls(s), ReturnedCalls(s)))
  {
    forall sid | sid in ServingCalls(s) && Wants(cfg, sid, m) ensures Reached(cfg, sid, to) {
      assert CallOk(cfg, s, sid);
      assert Held(cfg, s, sid);
    }
  }

  lemma ServeStep(cfg: Setting, s: State, c: nat, to: set<Sid>)
    requires Inv(cfg, s) && Enabled(cfg, s, ServerReads(c, to))
    ensures Inv(cfg, Apply(cfg, s, ServerReads(c, to)))
  {
    var s' := Serve(s, c, to);
    var x, y := ConnOf(s, c), ConnOf(s', c);
    assert Queue(x) == [x.wire[0]] + Queue(y);
    assert s'.issued == s.issued && s'.calls == s.calls;
    forall sid: Sid ensures CallOk(cfg, s', sid) {
      assert CallOk(cfg, s, sid);
      if cfg.conn(sid) == c {
        PopKeeps(cfg.flushes, x, y, sid, StageOf(s, sid));
      } else {
        assert ConnOf(s', cfg.conn(sid)) == ConnOf(s, cfg.conn(sid));
      }
    }
    ServeKeepsPubs(s, c, to);
    ServeKeepsRoutes(cfg, s, c, to);
  }

  lemma ServeKeepsPubs(s: State, c: nat, to: set<Sid>)
    requires PubsIssued(s) && ConnOf(s, c).wire != []
    ensures PubsIssued(Serve(s, c, to))
  {
    var s', x := Serve(s, c, to), ConnOf(s, c);
    assert Queue(x) == [x.wire[0]] + Queue(ConnOf(s', c));
    forall d: nat, m: Msg | Pub(m) in Queue(ConnOf(s', d)) ensures m in s'.issued {
      if d == c {
        assert Pub(m) in Queue(x);
      } else {
        assert ConnOf(s', d) == ConnOf(s, d);
      }
    }
  }

  lemma ServeKeepsRoutes(cfg: Setting, s: State, c: nat, to: set<Sid>)
    requires Inv(cfg, s) && Enabled(cfg, s, ServerReads(c, to))
    ensures cfg.flushes ==> forall r | r in Serve(s, c, to).routes :: RouteOk(cfg, Serve(s, c, to), r)
  {
    var s', x := Serve(s, c, to), ConnOf(s, c);
    forall r | cfg.flushes && r in s'.routes ensures RouteOk(cfg, s', r) {
      if r in s.routes {
        assert RouteOk(cfg, s, r);
      } else {
        assert x.wire[0] in Queue(x);
        RouteReaches(cfg, s, x.wire[0].m, to);
      }
    }
  }

  lemma InvStep(cfg: Setting, s: State, e: Event)
    requires Inv(cfg, s) && Enabled(cfg, s, e)
    ensures Inv(cfg, Apply(cfg, s, e))
  {
    match e
    case Subscribe(sid) => SubscribeStep(cfg, s, sid);
    case BeginFlush(sid) => BeginFlushStep(cfg, s, sid);
    case Publish(c, m) => PublishStep(cfg, s, c, m);
    case Drain(c) => DrainStep(cfg, s, c, Apply(cfg, s, e));
    case ServerReads(c, to) => ServeStep(cfg, s, c, to);
    case _ => MoveStep(cfg, s, e, Apply(cfg, s, e));
  }

  lemma LastEvent(cfg: Setting, run: seq<State>) returns (before: seq<State>, e: Event)
    requires IsRun(cfg, run) && |run| > 1
    ensures before == run[..|run| - 1] && IsRun(cfg, before)
    ensures Enabled(cfg, before[|before| - 1], e) && run[|run| - 1] == Apply(cfg, before[|before| - 1], e)
  {
    before := run[..|run| - 1];
    forall i | 0 <= i < |before| - 1 ensures Next(cfg, before[i], before[i + 1]) {
      assert Next(cfg, run[i], run[i + 1]);
    }
    assert Next(cfg, run[|run| - 2], run[|run| - 2 + 1]);
    e :| Enabled(cfg, run[|run| - 2], e) && run[|run| - 1] == Apply(cfg, run[|run| - 2], e);
  }

  lemma {:induction false} InvRun(cfg: Setting, run: seq<State>)
    requires IsRun(cfg, run)
    ensures Inv(cfg, run[|run| - 1])
    decreases |run|
  {
    if |run| == 1 {
    } else {
      var before, e := LastEvent(cfg, run);
      InvRun(cfg, before);
      InvStep(cfg, before[|before| - 1], e);
    }
  }

  // ---------------------------------------------------------------------------
  // What readiness guarantees
  // ---------------------------------------------------------------------------

  /** In every run, a call that reported readiness and has not ended is held by the server. */
  ghost predicate ReadyMeansHeld(cfg: Setting) {
    forall run: seq<State> | IsRun(cfg, run) :: ServingHeld(cfg, run[|run| - 1])
  }

  ghost predicate ServingHeld(cfg: Setting, s: State) {
    forall sid: Sid | StageOf(s, sid).Serving? :: Held(cfg, s, sid)
  }

  /**
   * ready fires at most once: exactly once for a call that serves or ended without error, never on an
   * error path.
   */
  lemma ReadyAtMostOnce(cfg: Setting, run: seq<State>, sid: Sid)
    requires IsRun(cfg, run)
    ensures var call := CallOf(run[|run| - 1], sid);
            && call.readies == (if call.stage.Serving? || call.stage == Returned(false) then 1 else 0)
            && (call.stage == Returned(true) ==> call.readies == 0)
  {
    InvRun(cfg, run);
    assert CallOk(cfg, run[|run| - 1], sid);
  }

  /** ... and never after the call returned. */
  lemma ReturnedIsFinal(cfg: Setting, s: State, e: Event, sid: Sid)
    requires Enabled(cfg, s, e) && StageOf(s, sid).Returned?
    ensures CallOf(Apply(cfg, s, e), sid) == CallOf(s, sid)
  {
  }

  // ---------------------------------------------------------------------------
  // Every message is routed once
  // ---------------------------------------------------------------------------

  /** How often a message is queued on a connection. */
  function Queued(s: State, c: nat, m: Msg): nat {
    multiset(Queue(ConnOf(s, c)))[Pub(m)]
  }

  /** The routes of one message, in order. */
  function RoutesOf(routes: seq<Route>, m: Msg): seq<Route> {
    if routes == [] then []
    else
      var before, last := RoutesOf(routes[..|routes| - 1], m), routes[|routes| - 1];
      if last.m == m then before + [last] else before
  }

  lemma RoutesPush(routes: seq<Route>, r: Route, m: Msg)
    ensures RoutesOf(routes + [r], m) == RoutesOf(routes, m) + if r.m == m then [r] else []
  {
    assert (routes + [r])[..|routes|] == routes;
  }

  lemma {:induction false} RoutesMembers(routes: seq<Route>, m: Msg)
    ensures forall r | r in RoutesOf(routes, m) :: r in routes && r.m == m
  {
    if routes == [] {
    } else {
      RoutesMembers(routes[..|routes| - 1], m);
    }
  }

  ghost predicate NotQueued(s: State, m: Msg) {
    forall c: nat :: Queued(s, c, m) == 0
  }

  /** The message is on connection c once and nowhere else, and has not been routed. */
  ghost predicate InFlight(s: State, m: Msg, c: nat) {
    Queued(s, c, m) == 1 && (forall d: nat | d != c :: Queued(s, d, m) == 0) && RoutesOf(s.routes, m) == []
  }

  ghost predicate WasRouted(s: State, m: Msg) {
    NotQueued(s, m) && |RoutesOf(s.routes, m)| == 1
  }

  ghost predicate MessageOk(s: State, m: Msg) {
    if m in s.issued then WasRouted(s, m) || exists c: nat :: InFlight(s, m, c)
    else NotQueued(s, m) && RoutesOf(s.routes, m) == []
  }

  ghost predicate Conserved(s: State) {
    forall m: Msg :: MessageOk(s, m)
  }

  lemma WriteQueues(s: State, c: nat, f: Frame, d: nat, m: Msg)
    ensures Queued(Write(s, c, f), d, m) == Queued(s, d, m) + if d == c && f == Pub(m) then 1 else 0
  {
    if d == c {
      assert Queue(ConnOf(Write(s, c, f), c)) == Queue(ConnOf(s, c)) + [f];
    }
  }

  lemma ServeConns(s: State, c: nat, to: set<Sid>)
    requires ConnOf(s, c).wire != []
    ensures var x, y := ConnOf(s, c), ConnOf(Serve(s, c, to), c);
            y.wire == x.wire[1..] && y.buffer == x.buffer && Queue(x) == [x.wire[0]] + Queue(y)
    ensures forall d: nat | d != c :: ConnOf(Serve(s, c, to), d) == ConnOf(s, d)
    ensures Serve(s, c, to).issued == s.issued
  {
  }

  lemma ServeQueues(s: State, c: nat, s': State, f: Frame, d: nat, m: Msg)
    requires Queue(ConnOf(s, c)) == [f] + Queue(ConnOf(s', c))
    requires d != c ==> ConnOf(s', d) == ConnOf(s, d)
    ensures Queued(s, d, m) == Queued(s', d, m) + if d == c && f == Pub(m) then 1 else 0
  {
  }

  /** A message whose queues and routes stay the same stays where it is. */
  lemma KeepsPlace(s: State, s': State, m: Msg)
    requires MessageOk(s, m) && (m in s'.issued <==> m in s.issued)
    requires RoutesOf(s'.routes, m) == RoutesOf(s.routes, m)
    requires forall c: nat :: Queued(s', c, m) == Queued(s, c, m)
    ensures MessageOk(s', m)
  {
    if c: nat :| InFlight(s, m, c) {
      assert InFlight(s', m, c);
    }
  }

  /** Steps that neither publish nor route leave every message where it is. */
  lemma SameQueuesConserve(s: State, s': State)
    requires Conserved(s) && s'.issued.Keys == s.issued.Keys && s'.routes == s.routes
    requires forall c: nat, m: Msg :: Queued(s', c, m) == Queued(s, c, m)
    ensures Conserved(s')
  {
    forall m: Msg ensures MessageOk(s', m) {
      assert MessageOk(s, m);
      KeepsPlace(s, s', m);
    }
  }

  lemma CallsConserve(s: State, c: nat, frames: seq<Frame>, calls: map<Sid, Call>, s': State)
    requires Conserved(s) && |frames| <= 1 && (frames != [] ==> !frames[0].Pub?)
    requires var moved := s.(calls := calls); s' == if frames == [] then moved else Write(moved, c, frames[0])
    ensures Conserved(s')
  {
    var moved := s.(calls := calls);
    forall d: nat, m: Msg ensures Queued(s', d, m) == Queued(s, d, m) {
      assert Queued(moved, d, m) == Queued(s, d, m);
      if frames != [] {
        WriteQueues(moved, c, frames[0], d, m);
      }
    }
    SameQueuesConserve(s, s');
  }

  lemma DrainConserves(cfg: Setting, s: State, c: nat)
    requires Conserved(s) && Enabled(cfg, s, Drain(c))
    ensures Conserved(Apply(cfg, s, Drain(c)))
  {
    var s', x := Apply(cfg, s, Drain(c)), ConnOf(s, c);
    assert x.buffer == [x.buffer[0]] + x.buffer[1..];
    assert Queue(ConnOf(s', c)) == Queue(x);
    SameQueuesConserve(s, s');
  }

  lemma PublishedMessage(s: State, c: nat, m: Msg, s': State, n: Msg)
    requires MessageOk(s, n) && m !in s.issued && s'.issued.Keys == s.issued.Keys + {m} && s'.routes == s.routes
    requires forall d: nat :: Queued(s', d, n) == Queued(s, d, n) + if d == c && n == m then 1 else 0
    ensures MessageOk(s', n)
  {
    if n == m {
      assert InFlight(s', m, c);
    } else {
      KeepsPlace(s, s', n);
    }
  }

  lemma PublishConserves(s: State, c: nat, m: Msg, s': State)
    requires Conserved(s) && m !in s.issued
    requires s' == Write(s, c, Pub(m)).(issued := s.issued[m := ServingCalls(s)])
    ensures Conserved(s')
  {
    var mid := Write(s, c, Pub(m));
    assert s'.conns == mid.conns && s'.routes == s.routes;
    forall n: Msg ensures MessageOk(s', n) {
      assert MessageOk(s, n);
      forall d: nat ensures Queued(s', d, n) == Queued(s, d, n) + if d == c && n == m then 1 else 0 {
        WriteQueues(s, c, Pub(m), d, n);
        assert ConnOf(s', d) == ConnOf(mid, d);
      }
      PublishedMessage(s, c, m, s', n);
    }
  }

  /** The server takes a message off its connection and routes it. */
  lemma ServedMessage(s: State, c: nat, to: set<Sid>, s': State, m: Msg)
    requires MessageOk(s, m) && ConnOf(s, c).wire != [] && ConnOf(s, c).wire[0] == Pub(m)
    requires s' == Serve(s, c, to)
    ensures MessageOk(s', m)
  {
    ServeConns(s, c, to);
    forall d: nat ensures Queued(s, d, m) == Queued(s', d, m) + if d == c then 1 else 0 {
      ServeQueues(s, c, s', Pub(m), d, m);
    }
    assert Queued(s, c, m) >= 1;
    RoutesPush(s.routes, Route(m, to, ServingCalls(s), ReturnedCalls(s)), m);
    assert WasRouted(s', m);
  }

  lemma OtherMessage(s: State, c: nat, to: set<Sid>, s': State, m: Msg)
    requires MessageOk(s, m) && ConnOf(s, c).wire != [] && ConnOf(s, c).wire[0] != Pub(m)
    requires s' == Serve(s, c, to)
    ensures MessageOk(s', m)
  {
    var f := ConnOf(s, c).wire[0];
    ServeConns(s, c, to);
    forall d: nat ensures Queued(s', d, m) == Queued(s, d, m) {
      ServeQueues(s, c, s', f, d, m);
    }
    if f.Pub? {
      RoutesPush(s.routes, Route(f.m, to, ServingCalls(s), ReturnedCalls(s)), m);
    }
    KeepsPlace(s, s', m);
  }

  lemma ServeConserves(s: State, c: nat, to: set<Sid>, s': State)
    requires Conserved(s) && ConnOf(s, c).wire != [] && s' == Serve(s, c, to)
    ensures Conserved(s')
  {
    forall m: Msg ensures MessageOk(s', m) {
      assert MessageOk(s, m);
      if ConnOf(s, c).wire[0] == Pub(m) {
        ServedMessage(s, c, to, s', m);
      } else {
        OtherMessage(s, c, to, s', m);
      }
    }
  }

  lemma ConservedStep(cfg: Setting, s: State, e: Event, s': State)
    requires Conserved(s) && Enabled(cfg, s, e) && s' == Apply(cfg, s, e)
    ensures Conserved(s')
  {
    match e
    case Publish(c, m) => PublishConserves(s, c, m, s');
    case Drain(c) => DrainConserves(cfg, s, c);
    case ServerReads(c, to) => ServeConserves(s, c, to, s');
    case _ =>
      var frames := match e
        case Subscribe(sid) => [Sub(sid)]
        case BeginFlush(sid) => [Ping(sid)]
        case FlushFails(sid, unsubscribed) => if unsubscribed then [Unsub(sid)] else []
        case CtxDone(sid, unsubscribed) => if unsubscribed then [Unsub(sid)] else []
        case _ => [];
      CallsConserve(s, cfg.conn(e.sid), frames, s'.calls, s');
  }

  /**
   * Conservation: in every run each message that was published is on exactly one connection, once,
   * and has not been routed, or it is on none and was routed exactly once.
   */
  lemma {:induction false} ConservedRun(cfg: Setting, run: seq<State>)
    requires IsRun(cfg, run)
    ensures Conserved(run[|run| - 1])
    decreases |run|
  {
    if |run| == 1 {
    } else {
      var before, e := LastEvent(cfg, run);
      ConservedRun(cfg, before);
      ConservedStep(cfg, before[|before| - 1], e, run[|run| - 1]);
    }
  }

  /** The one route that the server chose for a message left no connection waiting for it. */
  ghost predicate Arrived(cfg: Setting, s: State, m: Msg, sid: Sid) {
    var routes := RoutesOf(s.routes, m);
    |routes| == 1 && (Reached(cfg, sid, routes[0].to) || sid in routes[0].returned)
  }

  /**
   * A message published after ready() that is on no connection any more was routed once, and to the
   * callback (for a queue group: to exactly one member that the server holds, see QueueGroups),
   * unless the call's context ended before the server got to the message.
   */
  lemma PublishAfterReadyArrives(cfg: Setting, run: seq<State>, m: Msg, sid: Sid)
    requires IsRun(cfg, run) && cfg.flushes && NotQueued(run[|run| - 1], m)
    requires m in run[|run| - 1].issued && sid in run[|run| - 1].issued[m] && Wants(cfg, sid, m)
    ensures Arrived(cfg, run[|run| - 1], m, sid)
  {
    var s := run[|run| - 1];
    InvRun(cfg, run);
    ConservedRun(cfg, run);
    assert MessageOk(s, m);
    RoutesMembers(s.routes, m);
    var r := RoutesOf(s.routes, m)[0];
    assert r in RoutesOf(s.routes, m) && RouteOk(cfg, s, r);
  }

  /** The same for a subscription on all subjects of a domain and a message for one of its events. */
  lemma DomainSubscriptionArrives(cfg: Setting, run: seq<State>, m: Msg, sid: Sid,
                                  segments: seq<string>, domain: string, entity: string, event: string)
    requires IsRun(cfg, run) && cfg.flushes && NotQueued(run[|run| - 1], m)
    requires m in run[|run| - 1].issued && sid in run[|run| - 1].issued[m]
    requires Subjects.BuildEvent(segments, domain, entity, event).Ok?
    requires cfg.subject(m) == Subjects.EventString(Subjects.BuildEvent(segments, domain, entity, event).value)
    requires cfg.pattern(sid) == Subjects.DomainAll(Subjects.BuildDomain(segments, domain).value)
    ensures Arrived(cfg, run[|run| - 1], m, sid)
  {
    Subjects.EventBelowDomain(segments, domain, entity, event, segments, domain);
    assert segments + [domain] < segments + [domain, entity, event];
    PublishAfterReadyArrives(cfg, run, m, sid);
  }

  // ---------------------------------------------------------------------------
  // The server can always get to a message
  // ---------------------------------------------------------------------------

  lemma Extend(cfg: Setting, run: seq<State>, e: Event) returns (longer: seq<State>)
    requires IsRun(cfg, run) && Enabled(cfg, run[|run| - 1], e)
    ensures IsRun(cfg, longer) && run <= longer && longer[|longer| - 1] == Apply(cfg, run[|run| - 1], e)
  {
    longer := run + [Apply(cfg, run[|run| - 1], e)];
    forall i | 0 <= i < |longer| - 1 ensures Next(cfg, longer[i], longer[i + 1]) {
      if i < |run| - 1 {
        assert Next(cfg, run[i], run[i + 1]);
      }
    }
  }

  /** Who holds a subscription that wants the message. */
  function Wanting(cfg: Setting, s: State, m: Msg): set<Sid> {
    set c, sid | c in s.conns && sid in s.conns[c].held && cfg.conn(sid) == c && Wants(cfg, sid, m) :: sid
  }

  /** From any set of subscriptions all plain ones and one of each group can be chosen. */
  lemma {:induction false} Choose(cfg: Setting, wanting: set<Sid>) returns (to: set<Sid>)
    ensures to <= wanting && forall sid | sid in wanting :: Reached(cfg, sid, to)
    decreases |wanting|
  {
    if wanting == {} {
      return {};
    }
    var x :| x in wanting;
    to := Choose(cfg, wanting - {x});
    if y :| y in to && cfg.group(x).Some? && cfg.group(y) == cfg.group(x) {
      assert Reached(cfg, y, to);
      return;
    }
    var others := to;
    to := others + {x};
    assert cfg.group(x).Some? ==> SoleMember(cfg, cfg.group(x).value, to, x);
    forall sid | sid in wanting && sid != x ensures Reached(cfg, sid, to) {
      assert sid in wanting - {x};
      StillReached(cfg, sid, others, x);
    }
  }

  lemma StillReached(cfg: Setting, sid: Sid, to: set<Sid>, x: Sid)
    requires Reached(cfg, sid, to)
    requires cfg.group(x).None? || forall y | y in to :: cfg.group(y) != cfg.group(x)
    ensures Reached(cfg, sid, to + {x})
  {
    var group := cfg.group(sid);
    if group.Some? {
      var member :| SoleMember(cfg, group.value, to, member);
      assert SoleMember(cfg, group.value, to + {x}, member);
    }
  }

  /** The server reads the next frame of a connection, or the client sends it off first. */
  lemma ServeOne(cfg: Setting, run: seq<State>, c: nat) returns (longer: seq<State>)
    requires IsRun(cfg, run) && Queue(ConnOf(run[|run| - 1], c)) != []
    ensures IsRun(cfg, longer) && run <= longer
    ensures var s, s' := run[|run| - 1], longer[|longer| - 1];
            && s'.calls == s.calls && s'.issued == s.issued && OthersKept(s, s', c)
            && Left(ConnOf(s', c)) < Left(ConnOf(s, c))
  {
    var s := run[|run| - 1];
    var x := ConnOf(s, c);
    if x.wire == [] {
      longer := Extend(cfg, run, Drain(c));
    } else {
      var to := {};
      if x.wire[0].Pub? {
        to := Choose(cfg, Wanting(cfg, s, x.wire[0].m));
        assert Routed(cfg, s, x.wire[0].m, to);
      }
      longer := Extend(cfg, run, ServerReads(c, to));
    }
  }

  ghost predicate OthersKept(s: State, s': State, c: nat) {
    forall d: nat | d != c :: ConnOf(s', d) == ConnOf(s, d)
  }

  function Left(x: Conn): nat {
    2 * |x.buffer| + |x.wire|
  }

  lemma {:induction false} ServeAll(cfg: Setting, run: seq<State>, c: nat) returns (longer: seq<State>)
    requires IsRun(cfg, run)
    ensures IsRun(cfg, longer) && run <= longer
    ensures var s, s' := run[|run| - 1], longer[|longer| - 1];
            && s'.calls == s.calls && s'.issued == s.issued && OthersKept(s, s', c)
            && Queue(ConnOf(s', c)) == []
    decreases Left(ConnOf(run[|run| - 1], c))
  {
    if Queue(ConnOf(run[|run| - 1], c)) == [] {
      longer := run;
    } else {
      var next := ServeOne(cfg, run, c);
      longer := ServeAll(cfg, next, c);
    }
  }

  lemma NothingLeft(s: State, c: nat, s': State, m: Msg)
    requires InFlight(s, m, c) && OthersKept(s, s', c) && Queue(ConnOf(s', c)) == []
    ensures NotQueued(s', m)
  {
    forall d: nat ensures Queued(s', d, m) == 0 {
      if d != c {
        assert ConnOf(s', d) == ConnOf(s, d) && Queued(s, d, m) == 0;
      }
    }
  }

  /**
   * From every reachable state the server can get to a message that was published while a call was
   * serving, without any call moving, and then it has arrived.
   */
  lemma CanArrive(cfg: Setting, run: seq<State>, m: Msg, sid: Sid) returns (longer: seq<State>)
    requires IsRun(cfg, run) && cfg.flushes
    requires m in run[|run| - 1].issued && sid in run[|run| - 1].issued[m] && Wants(cfg, sid, m)
    ensures IsRun(cfg, longer) && run <= longer && longer[|longer| - 1].calls == run[|run| - 1].calls
    ensures longer[|longer| - 1].issued == run[|run| - 1].issued
    ensures NotQueued(longer[|longer| - 1], m) && Arrived(cfg, longer[|longer| - 1], m, sid)
  {
    var s := run[|run| - 1];
    ConservedRun(cfg, run);
    assert MessageOk(s, m);
    longer := run;
    if c: nat :| InFlight(s, m, c) {
      longer := ServeAll(cfg, run, c);
      NothingLeft(s, c, longer[|longer| - 1], m);
    }
    PublishAfterReadyArrives(cfg, longer, m, sid);
  }

  // ---------------------------------------------------------------------------
  // Without the flush
  // ---------------------------------------------------------------------------

  /** Without the flush, ready fires while the subscription is still in the write buffer. */
  lemma UnflushedReady(cfg: Setting, sid: Sid) returns (run: seq<State>)
    requires !cfg.flushes
    ensures IsRun(cfg, run) && StageOf(run[|run| - 1], sid).Serving?
    ensures run[|run| - 1].conns == map[cfg.conn(sid) := Conn([Sub(sid)], [], {}, {})]
    ensures run[|run| - 1].issued == map[] && run[|run| - 1].routes == []
    ensures run[|run| - 1].calls == map[sid := Call(Serving, 1)]
  {
    run := [State(map[], map[], map[], [])];
    run := Extend(cfg, run, Subscribe(sid));
    assert [] + [Sub(sid)] == [Sub(sid)];
    run := Extend(cfg, run, FireReady(sid));
  }

  lemma InvHeld(cfg: Setting, s: State)
    requires Inv(cfg, s) && cfg.flushes
    ensures ServingHeld(cfg, s)
  {
    forall sid: Sid | StageOf(s, sid).Serving? ensures Held(cfg, s, sid) {
      assert CallOk(cfg, s, sid);
    }
  }

  /** Readiness holds in all runs exactly because the call flushes first. */
  lemma ReadinessNeedsFlush(cfg: Setting)
    ensures ReadyMeansHeld(cfg) <==> cfg.flushes
  {
    if cfg.flushes {
      forall run: seq<State> | IsRun(cfg, run) ensures ServingHeld(cfg, run[|run| - 1]) {
        InvRun(cfg, run);
        InvHeld(cfg, run[|run| - 1]);
      }
    } else {
      var run := UnflushedReady(cfg, 0);
      assert !Held(cfg, run[|run| - 1], 0);
    }
  }

  /** Without the flush a message published on another connection after ready() can be lost. */
  lemma LosingRun(cfg: Setting, sid: Sid, c: nat, m: Msg) returns (run: seq<State>)
    requires !cfg.flushes && c != cfg.conn(sid) && Wants(cfg, sid, m)
    ensures IsRun(cfg, run)
    ensures var s := run[|run| - 1];
            && s.routes == [Route(m, {}, {sid}, {})] && m in s.issued && sid in s.issued[m]
            && !Reached(cfg, sid, s.routes[0].to)
  {
    run := UnflushedReady(cfg, sid);
    assert ServingCalls(run[|run| - 1]) == {sid};
    run := Extend(cfg, run, Publish(c, m));
    assert ConnOf(run[|run| - 1], c) == Conn([Pub(m)], [], {}, {}) by {
      assert [] + [Pub(m)] == [Pub(m)];
    }
    run := Extend(cfg, run, Drain(c));
    assert ConnOf(run[|run| - 1], c) == Conn([], [Pub(m)], {}, {}) by {
      assert [Pub(m)][1..] == [] && [] + [Pub(m)] == [Pub(m)];
    }
    var s := run[|run| - 1];
    assert forall other: Sid :: !Held(cfg, s, other);
    assert ServingCalls(s) == {sid} && ReturnedCalls(s) == {};
    run := Extend(cfg, run, ServerReads(c, {}));
    assert [] + [Route(m, {}, {sid}, {})] == [Route(m, {}, {sid}, {})];
  }
}