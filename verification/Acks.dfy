/**
 * Acknowledgement: the capability fallbacks of message.go, the RetryAck and AutoAck middleware, and
 * the per-delivery callback of the JetStream subscriber.
 */
module Acks {
  import opened Core
  import opened Backoff

  /** Which optional interfaces of acker.go the transport's acker implements. */
  datatype Caps = Caps(delayedNaker: bool, terminator: bool, inProgresser: bool, reporter: bool)

  /** A method called on a message, or on the acker behind it. */
  datatype Call = Ack | Nak | NakWithDelay(delay: int) | Term | InProgress

  /** Every call but InProgress settles the delivery. */
  predicate Terminal(c: Call) {
    !c.InProgress?
  }

  function Terminals(log: seq<Call>): nat {
    if log == [] then 0
    else Terminals(log[..|log| - 1]) + if Terminal(log[|log| - 1]) then 1 else 0
  }

  lemma {:induction false} TerminalsConcat(a: seq<Call>, b: seq<Call>)
    ensures Terminals(a + b) == Terminals(a) + Terminals(b)
  {
    if b == [] {
      assert a + b == a;
    } else {
      var b' := b[..|b| - 1];
      TerminalsConcat(a, b');
      assert (a + b)[..|a + b| - 1] == a + b';
    }
  }

  // ---------------------------------------------------------------------------
  // The acker and message.go
  // ---------------------------------------------------------------------------

  /** The fixed part of an acker: its interfaces, its answer to its k-th call, its delivery count. */
  datatype Port = Port(caps: Caps, answers: nat -> Option<Error>, delivered: nat)

  /** The call that a message method makes on an acker with the given capabilities, if any. */
  function Dispatch(caps: Caps, call: Call): (sent: Option<Call>)
    ensures sent.None? <==> call.InProgress? && !caps.inProgresser
    ensures sent.Some? ==> (Terminal(sent.value) <==> Terminal(call))
  {
    match call
    case Ack => Some(Ack)
    case Nak => Some(Nak)
    case NakWithDelay(d) => if caps.delayedNaker then Some(call) else Some(Nak)
    case Term => if caps.terminator then Some(Term) else Some(Ack)
    case InProgress => if caps.inProgresser then Some(InProgress) else None
  }

  function Delivered(port: Port): nat {
    if port.caps.reporter then port.delivered else 0
  }

  /** The acker's log and the error returned after a message method was called. */
  function AfterCall(port: Option<Port>, log: seq<Call>, call: Call): (seq<Call>, Option<Error>) {
    if port.None? || Dispatch(port.value.caps, call).None? then (log, None)
    else (log + [Dispatch(port.value.caps, call).value], port.value.answers(|log|))
  }

  class Acker {
    const port: Port
    var log: seq<Call>

    constructor (port: Port)
      ensures this.port == port && log == []
    {
      this.port := port;
      log := [];
    }

    method Receive(call: Call) returns (err: Option<Error>)
      modifies this
      ensures log == old(log) + [call] && err == port.answers(|old(log)|)
    {
      err := port.answers(|log|);
      log := log + [call];
    }
  }

  /** The acker side of goflux.Message; the acker may be nil. */
  datatype Message = Message(acker: Acker?) {

    function PortOf(): Option<Port> {
      if acker == null then None else Some(acker.port)
    }

    function Log(): seq<Call>
      reads acker
    {
      if acker == null then [] else acker.log
    }

    predicate HasAcker() {
      acker != null
    }

    /** Message.Ack, Nak, NakWithDelay, Term and InProgress */
    method Invoke(call: Call) returns (err: Option<Error>)
      modifies acker
      ensures (Log(), err) == AfterCall(PortOf(), old(Log()), call)
    {
      if acker == null {
        return None;
      }
      match call {
        case Ack => err := acker.Receive(Ack);
        case Nak => err := acker.Receive(Nak);
        case NakWithDelay(d) =>
          if acker.port.caps.delayedNaker {
            err := acker.Receive(NakWithDelay(d));
          } else {
            err := acker.Receive(Nak);
          }
        case Term =>
          if acker.port.caps.terminator {
            err := acker.Receive(Term);
          } else {
            err := acker.Receive(Ack);
          }
        case InProgress =>
          if acker.port.caps.inProgresser {
            err := acker.Receive(InProgress);
          } else {
            err := None;
          }
      }
    }

    /** Message.Delivery */
    method Delivery() returns (n: nat)
      ensures n == if acker == null then 0 else Delivered(acker.port)
    {
      if acker != null && acker.port.caps.reporter {
        return acker.port.delivered;
      }
      n := 0;
    }
  }

  // ---------------------------------------------------------------------------
  // Handlers and acknowledging middleware
  // ---------------------------------------------------------------------------

  datatype Layer = RetryAck(policy: Policy) | AutoAck

  /** An innermost handler makes some calls on its message and returns; layers wrap it. */
  datatype Handler = Base(calls: seq<Call>, err: Option<Error>) | Wrap(layer: Layer, inner: Handler)

  /** The message method that RetryAck calls for a handler's result. */
  function Verdict(policy: Policy, err: Option<Error>, delivered: nat): Call {
    if err.None? then Ack
    else
      var d := policy(err.value, delivered);
      match d.action
      case RetryTerm => Term
      case RetryNakWithDelay => NakWithDelay(d.delay)
      case RetryNak => Nak
  }

  function AfterCalls(port: Option<Port>, log: seq<Call>, calls: seq<Call>): seq<Call> {
    if calls == [] then log
    else AfterCall(port, AfterCalls(port, log, calls[..|calls| - 1]), calls[|calls| - 1]).0
  }

  function AfterLayer(layer: Layer, port: Option<Port>, log: seq<Call>, err: Option<Error>)
    : (seq<Call>, Option<Error>)
  {
    if port.None? then (log, err)
    else
      var call := match layer
        case RetryAck(policy) => Verdict(policy, err, Delivered(port.value))
        case AutoAck => if err.None? then Ack else Nak;
      var (log', ackErr) := AfterCall(port, log, call);
      (log', if err.None? then ackErr else err)
  }

  /** The acker's log and the returned error after a whole handler ran. */
  function AfterHandler(h: Handler, port: Option<Port>, log: seq<Call>): (seq<Call>, Option<Error>) {
    match h
    case Base(calls, err) => (AfterCalls(port, log, calls), err)
    case Wrap(layer, inner) =>
      var (log', err) := AfterHandler(inner, port, log);
      AfterLayer(layer, port, log', err)
  }

  /** The part of RetryAck's handler after next returned `err`. */
  method SettleByPolicy(policy: Policy, msg: Message, err: Option<Error>) returns (ret: Option<Error>)
    modifies msg.acker
    ensures (msg.Log(), ret) == AfterLayer(RetryAck(policy), msg.PortOf(), old(msg.Log()), err)
  {
    if !msg.HasAcker() {
      return err;
    }
    if err.None? {
      ret := msg.Invoke(Ack);
      return;
    }
    var delivered := msg.Delivery();
    var decision := policy(err.value, delivered);
    var ackErr: Option<Error>;
    match decision.action {
      case RetryTerm => ackErr := msg.Invoke(Term);
      case RetryNakWithDelay => ackErr := msg.Invoke(NakWithDelay(decision.delay));
      case RetryNak => ackErr := msg.Invoke(Nak);
    }
    ret := err;
  }

  /** The part of AutoAck's handler after next returned `err`. */
  method SettleByError(msg: Message, err: Option<Error>) returns (ret: Option<Error>)
    modifies msg.acker
    ensures (msg.Log(), ret) == AfterLayer(AutoAck, msg.PortOf(), old(msg.Log()), err)
  {
    if !msg.HasAcker() {
      return err;
    }
    if err.Some? {
      var _ := msg.Invoke(Nak);
      return err;
    }
    ret := msg.Invoke(Ack);
  }

  method Handle(h: Handler, msg: Message) returns (err: Option<Error>)
    modifies msg.acker
    ensures (msg.Log(), err) == AfterHandler(h, msg.PortOf(), old(msg.Log()))
    decreases h
  {
    match h {
      case Base(calls, result) =>
        for i := 0 to |calls|
          invariant msg.Log() == AfterCalls(msg.PortOf(), old(msg.Log()), calls[..i])
        {
          assert calls[..i + 1][..i] == calls[..i];
          var _ := msg.Invoke(calls[i]);
        }
        assert calls[..|calls|] == calls;
        err := result;
      case Wrap(layer, inner) =>
        err := Handle(inner, msg);
        match layer {
          case RetryAck(policy) => err := SettleByPolicy(policy, msg, err);
          case AutoAck => err := SettleByError(msg, err);
        }
    }
  }

  // ---------------------------------------------------------------------------
  // The JetStream callback
  // ---------------------------------------------------------------------------

  /** jsAcker implements every optional interface. */
  const JS_CAPS := Caps(true, true, true, true)

  /** The acker's log after the consume callback dealt with one delivery. */
  function AfterDelivery(decodes: bool, h: Handler, manualAck: bool, port: Port, log: seq<Call>): seq<Call> {
    if !decodes then log + [Term]
    else
      var (log', err) := AfterHandler(h, Some(port), log);
      if manualAck then log' else log' + [if err.Some? then Nak else Ack]
  }

  /** The callback passed to Consume; calls on the raw message reach the same acker. */
  method OnDelivery(decodes: bool, h: Handler, manualAck: bool, msg: Acker)
    modifies msg
    ensures msg.log == AfterDelivery(decodes, h, manualAck, msg.port, old(msg.log))
  {
    if !decodes {
      var _ := msg.Receive(Term);
      return;
    }
    var err := Handle(h, Message(msg));
    if err.Some? {
      if !manualAck {
        var _ := msg.Receive(Nak);
      }
      return;
    }
    if !manualAck {
      var _ := msg.Receive(Ack);
    }
  }

  // ---------------------------------------------------------------------------
  // Exactly one terminal signal
  // ---------------------------------------------------------------------------

  function Layers(h: Handler): nat {
    match h
    case Base(_, _) => 0
    case Wrap(_, inner) => 1 + Layers(inner)
  }

  function BaseCalls(h: Handler): seq<Call> {
    match h
    case Base(calls, _) => calls
    case Wrap(_, inner) => BaseCalls(inner)
  }

  lemma TerminalsPush(log: seq<Call>, c: Call)
    ensures Terminals(log + [c]) == Terminals(log) + if Terminal(c) then 1 else 0
  {
    assert (log + [c])[..|log|] == log;
  }

  lemma {:induction false} CallsTerminals(port: Port, log: seq<Call>, calls: seq<Call>)
    ensures Terminals(AfterCalls(Some(port), log, calls)) == Terminals(log) + Terminals(calls)
  {
    if calls == [] {
    } else {
      CallsTerminals(port, log, calls[..|calls| - 1]);
      var before, last := AfterCalls(Some(port), log, calls[..|calls| - 1]), calls[|calls| - 1];
      var sent := Dispatch(port.caps, last);
      if sent.Some? {
        TerminalsPush(before, sent.value);
      }
    }
  }

  /** Each acknowledging layer settles once, whatever the capabilities and the ack errors. */
  lemma {:induction false} HandlerTerminals(h: Handler, port: Port, log: seq<Call>)
    ensures Terminals(AfterHandler(h, Some(port), log).0)
         == Terminals(log) + Terminals(BaseCalls(h)) + Layers(h)
  {
    match h
    case Base(calls, _) =>
      CallsTerminals(port, log, calls);
    case Wrap(layer, inner) =>
      HandlerTerminals(inner, port, log);
      var (log', err) := AfterHandler(inner, Some(port), log);
      var (after, _) := AfterLayer(layer, Some(port), log', err);
      assert |after| == |log'| + 1 && after == log' + [after[|log'|]];
      TerminalsPush(log', after[|log'|]);
  }

  /**
   * A delivery gets exactly one terminal signal if and only if it cannot be decoded, or the
   * signals sent by the handler, its layers and the subscriber's automatic mode add up to one.
   * With automatic mode that means a handler that does not settle; with manual mode one that does
   * so once, for instance under a single RetryAck.
   */
  lemma ExactlyOneTerminal(decodes: bool, h: Handler, manualAck: bool, port: Port, log: seq<Call>)
    ensures var signals := Terminals(AfterDelivery(decodes, h, manualAck, port, log)) - Terminals(log);
            && signals >= 0
            && (signals == 1 <==>
                !decodes || Terminals(BaseCalls(h)) + Layers(h) + (if manualAck then 0 else 1) == 1)
  {
    if !decodes {
      TerminalsPush(log, Term);
    } else {
      HandlerTerminals(h, port, log);
      var (log', err) := AfterHandler(h, Some(port), log);
      TerminalsPush(log', if err.Some? then Nak else Ack);
    }
  }

  /** Without an acker nothing is sent and every layer passes the handler's error through. */
  lemma {:induction false} NoAckerPassesThrough(h: Handler, log: seq<Call>)
    ensures AfterHandler(h, None, log).0 == log
    ensures AfterHandler(h, None, log).1 == Outcome(h)
  {
    match h
    case Base(calls, _) => NoAckerNoCalls(log, calls);
    case Wrap(_, inner) => NoAckerPassesThrough(inner, log);
  }

  function Outcome(h: Handler): Option<Error> {
    match h
    case Base(_, err) => err
    case Wrap(_, inner) => Outcome(inner)
  }

  lemma {:induction false} NoAckerNoCalls(log: seq<Call>, calls: seq<Call>)
    ensures AfterCalls(None, log, calls) == log
  {
    if calls == [] {
    } else {
      NoAckerNoCalls(log, calls[..|calls| - 1]);
    }
  }

  /**
   * A handler's error is returned whatever the acker answers. An ack error is returned only after a
   * success, and it is the acker's answer to one of the calls made meanwhile.
   */
  lemma {:induction false} HandlerErrorWins(h: Handler, port: Port, log: seq<Call>)
    ensures var (log', err) := AfterHandler(h, Some(port), log);
            && log <= log'
            && (Outcome(h).Some? ==> err == Outcome(h))
            && (Outcome(h).None? && err.Some? ==> exists i :: |log| <= i < |log'| && port.answers(i) == err)
  {
    match h
    case Base(calls, _) => CallsAppend(port, log, calls);
    case Wrap(layer, inner) =>
      HandlerErrorWins(inner, port, log);
      var (log', err) := AfterHandler(inner, Some(port), log);
      var (log'', err') := AfterLayer(layer, Some(port), log', err);
      assert |log''| == |log'| + 1 && log'' == log' + [log''[|log'|]];
      if err.None? {
        assert err' == port.answers(|log'|);
      }
  }

  lemma {:induction false} CallsAppend(port: Port, log: seq<Call>, calls: seq<Call>)
    ensures log <= AfterCalls(Some(port), log, calls)
  {
    if calls == [] {
    } else {
      CallsAppend(port, log, calls[..|calls| - 1]);
    }
  }

  // ---------------------------------------------------------------------------
  // Which signal
  // ---------------------------------------------------------------------------

  /** The acker has the method, if it is an optional one. */
  predicate Allows(caps: Caps, call: Call) {
    && (call.NakWithDelay? ==> caps.delayedNaker)
    && (call.Term? ==> caps.terminator)
    && (call.InProgress? ==> caps.inProgresser)
  }

  /** A call that the acker allows is made as it is; the others have their documented fallbacks. */
  lemma FallbackTable(caps: Caps, delay: int)
    ensures forall call | Allows(caps, call) :: Dispatch(caps, call) == Some(call)
    ensures !caps.delayedNaker ==> Dispatch(caps, NakWithDelay(delay)) == Some(Nak)
    ensures !caps.terminator ==> Dispatch(caps, Term) == Some(Ack)
    ensures !caps.inProgresser ==> Dispatch(caps, InProgress) == None
  {
  }

  ghost predicate AllAllowed(caps: Caps, calls: seq<Call>) {
    forall i | 0 <= i < |calls| :: Allows(caps, calls[i])
  }

  lemma {:induction false} CallsAllowed(port: Port, log: seq<Call>, calls: seq<Call>)
    requires AllAllowed(port.caps, log)
    ensures AllAllowed(port.caps, AfterCalls(Some(port), log, calls))
  {
    if calls == [] {
    } else {
      CallsAllowed(port, log, calls[..|calls| - 1]);
    }
  }

  /** No stack of middleware, around whatever handler, makes a call that the acker does not have. */
  lemma {:induction false} OnlyAllowedCalls(h: Handler, port: Port, log: seq<Call>)
    requires AllAllowed(port.caps, log)
    ensures AllAllowed(port.caps, AfterHandler(h, Some(port), log).0)
  {
    match h
    case Base(calls, _) => CallsAllowed(port, log, calls);
    case Wrap(layer, inner) => OnlyAllowedCalls(inner, port, log);
  }

  /** An acker with all capabilities gets a handler's own calls one by one, in order. */
  lemma {:induction false} OwnCallsArrive(port: Port, log: seq<Call>, calls: seq<Call>)
    requires port.caps == JS_CAPS
    ensures AfterCalls(Some(port), log, calls) == log + calls
  {
    if calls == [] {
    } else {
      OwnCallsArrive(port, log, calls[..|calls| - 1]);
      assert calls == calls[..|calls| - 1] + [calls[|calls| - 1]];
    }
  }

  /**
   * AutoAck around a handler that does not settle sends exactly Ack after success and exactly Nak
   * after an error, to any acker, and returns the handler's error or else the acker's answer.
   */
  lemma AutoAckSignal(err: Option<Error>, port: Port, log: seq<Call>)
    ensures AfterHandler(Wrap(AutoAck, Base([], err)), Some(port), log)
         == (log + [if err.None? then Ack else Nak], if err.None? then port.answers(|log|) else err)
  {
    assert AfterHandler(Base([], err), Some(port), log) == (log, err);
  }

  /**
   * RetryAck around a handler that does not settle, for any policy: Ack after success, returning the
   * acker's answer; after an error what the policy decides about it and the reported delivery count,
   * with the fallbacks of the acker, returning the error.
   */
  lemma RetryAckSignal(err: Option<Error>, policy: Policy, port: Port, log: seq<Call>)
    ensures var (log', ret) := AfterHandler(Wrap(RetryAck(policy), Base([], err)), Some(port), log);
            && (err.None? ==> log' == log + [Ack] && ret == port.answers(|log|))
            && (err.Some? ==>
                 var d := policy(err.value, if port.caps.reporter then port.delivered else 0);
                 && ret == err
                 && (d.action == RetryNak ==> log' == log + [Nak])
                 && (d.action == RetryNakWithDelay ==>
                      log' == log + [if port.caps.delayedNaker then NakWithDelay(d.delay) else Nak])
                 && (d.action == RetryTerm ==> log' == log + [if port.caps.terminator then Term else Ack]))
  {
    assert AfterHandler(Base([], err), Some(port), log) == (log, err);
  }

  /**
   * What the one signal is: Term for a message that does not decode; otherwise, for a handler that
   * does not settle by itself, the signal of the automatic mode and that of the fixed policy.
   */
  lemma TheTerminalSignal(err: Option<Error>, delay: int, port: Port, log: seq<Call>)
    requires port.caps == JS_CAPS
    ensures forall h, manualAck :: AfterDelivery(false, h, manualAck, port, log) == log + [Term]
    ensures AfterDelivery(true, Base([], err), false, port, log) == log + [if err.None? then Ack else Nak]
    ensures AfterDelivery(true, Wrap(RetryAck(FixedPolicy(delay)), Base([], err)), true, port, log)
         == log + [if err.None? then Ack else if err.value.nonRetryable then Term else NakWithDelay(delay)]
  {
    var v := Verdict(FixedPolicy(delay), err, port.delivered);
    assert Dispatch(port.caps, v) == Some(v);
  }

  /**
   * Without delivery counts the backoff policy takes every delivery for the first one: whatever the
   * true count and the limit are, a failure that may be retried waits the initial delay, capped.
   */
  lemma UnknownCountIsFirst(port: Port, initial: int, maxDelay: int, c: Config, e: Error)
    requires !port.caps.reporter
    ensures Verdict(BackoffPolicy(initial, maxDelay, c), Some(e), Delivered(port))
         == if e.nonRetryable then Term else NakWithDelay(if initial < maxDelay then initial else maxDelay)
  {
    TruncateInteger(initial);
    assert Pow(c.factor, Attempt(0)) == 1.0;
    assert Delay(initial, maxDelay, c, 0) == if initial < maxDelay then initial else maxDelay;
    var decision := BackoffPolicy(initial, maxDelay, c)(e, Delivered(port));
    assert decision.action == if IsNonRetryable(e) then RetryTerm else RetryNakWithDelay;
  }

  /**
   * The one signal under the backoff policy: Ack for success; Term for a non-retryable error or from
   * the configured delivery on; else a delay between the smaller setting and the maximum.
   */
  lemma TheBackoffSignal(err: Option<Error>, initial: int, maxDelay: int, opts: seq<PolicyOption>, port: Port)
    requires port.caps == JS_CAPS && initial >= 0
    ensures var c := ApplyOptions(opts);
            var h := Wrap(RetryAck(BackoffPolicy(initial, maxDelay, c)), Base([], err));
            var log := AfterDelivery(true, h, true, port, []);
            && |log| == 1
            && (log[0].Ack? <==> err.None?)
            && (log[0].Term? <==> err.Some? && (err.value.nonRetryable ||
                                                (c.maxDeliveries > 0 && port.delivered >= c.maxDeliveries)))
            && (!log[0].Ack? && !log[0].Term? ==>
                 log[0].NakWithDelay? && log[0].delay <= maxDelay
                 && (initial <= log[0].delay || log[0].delay == maxDelay))
  {
    var c := ApplyOptions(opts);
    FactorAtLeastOne(opts);
    DelayBounds(initial, maxDelay, c, port.delivered);
    var policy := BackoffPolicy(initial, maxDelay, c);
    var v := Verdict(policy, err, port.delivered);
    assert Dispatch(port.caps, v) == Some(v);
    assert AfterHandler(Base([], err), Some(port), []) == ([], err);
    assert AfterDelivery(true, Wrap(RetryAck(policy), Base([], err)), true, port, []) == [] + [v] == [v];
  }
}
