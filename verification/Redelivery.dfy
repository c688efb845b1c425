/**
 * One JetStream message from its first delivery to its end: deliveries, redeliveries after naks and
 * ack timeouts, and for each delivery the subscriber's callback around a flat-map pipe over retrying
 * publishers. Deliveries may overlap: after an ack timeout the message is delivered again while an
 * earlier delivery is still being handled.
 */
module Redelivery {
  import opened Core
  import opened Backoff
  import opened Acks
  import Retry
  import Pipe

  /** What the surroundings decide about the d-th delivery; `counted`: its metadata can be parsed. */
  datatype Circumstance<U> = Circumstance(
    decodes: bool,
    accepted: bool,
    expansion: Result<seq<U>>,
    counted: bool,
    env: Retry.Env,
    ackAnswers: nat -> Option<Error>
  )

  /** With manualAck the pipe is wrapped in RetryAck(policy); without, the subscriber settles. */
  datatype Setup<!U> = Setup(
    manualAck: bool,
    policy: Policy,
    caps: Caps,
    layers: seq<Retry.Layer>,
    circumstance: nat -> Circumstance<U>
  )

  function Handled<U>(cfg: Setup<U>, d: nat): Pipe.Outcome<U> {
    var c := cfg.circumstance(d);
    Pipe.FlatMapped(cfg.layers, c.env, 0, c.accepted, c.expansion)
  }

  /** The items that delivery d publishes before it settles. */
  function Plan<U>(cfg: Setup<U>, d: nat): seq<U> {
    if cfg.circumstance(d).decodes then Handled(cfg, d).published else []
  }

  function PortOf<U>(cfg: Setup<U>, d: nat): Port {
    Port(cfg.caps, cfg.circumstance(d).ackAnswers, if cfg.circumstance(d).counted then d else 0)
  }

  /** The terminal call with which delivery d settles. */
  function Signal<U>(cfg: Setup<U>, d: nat): Call {
    var err := Handled(cfg, d).err;
    if !cfg.circumstance(d).decodes then Term
    else if cfg.manualAck then Dispatch(cfg.caps, Verdict(cfg.policy, err, Delivered(PortOf(cfg, d)))).value
    else if err.Some? then Nak else Ack
  }

  /** This is the one call that the subscriber's callback makes for the delivery. */
  lemma SignalOfCallback<U>(cfg: Setup<U>, d: nat)
    ensures var base := Base([], Handled(cfg, d).err);
            AfterDelivery(cfg.circumstance(d).decodes,
                          if cfg.manualAck then Wrap(RetryAck(cfg.policy), base) else base,
                          cfg.manualAck, PortOf(cfg, d), [])
            == [Signal(cfg, d)]
  {
    var err := Handled(cfg, d).err;
    var v := Verdict(cfg.policy, err, Delivered(PortOf(cfg, d)));
    assert Terminal(v);
    assert Dispatch(cfg.caps, v).Some?;
    assert AfterHandler(Base([], err), Some(PortOf(cfg, d)), []) == ([], err);
    assert [] + [Signal(cfg, d)] == [Signal(cfg, d)];
  }

  // ---------------------------------------------------------------------------
  // The state machine
  // ---------------------------------------------------------------------------

  datatype Status = Pending | Acked(through: nat) | Termed(through: nat)

  datatype Publication<U> = Publication(delivery: nat, item: U)

  /**
   * `deliveries` lists the delivery counts in order, `working` says how many items each delivery in
   * progress has published, `settled` holds the calls of the finished ones.
   */
  datatype State<U> = State(
    status: Status,
    deliveries: seq<nat>,
    working: map<nat, nat>,
    settled: map<nat, Call>,
    log: seq<Publication<U>>
  )

  datatype Event = Deliver(count: nat) | PublishOne(d: nat) | Settle(d: nat, lost: bool)

  function Last(deliveries: seq<nat>): nat {
    if deliveries == [] then 0 else deliveries[|deliveries| - 1]
  }

  predicate Init<U>(s: State<U>) {
    s.status == Pending && s.deliveries == [] && s.working == map[] && s.settled == map[] && s.log == []
  }

  predicate Enabled<U>(cfg: Setup<U>, s: State<U>, e: Event) {
    match e
    case Deliver(n) => s.status.Pending? && n > Last(s.deliveries)
    case PublishOne(d) => d in s.working && s.working[d] < |Plan(cfg, d)|
    case Settle(d, _) => d in s.working && s.working[d] >= |Plan(cfg, d)|
  }

  function Settled(status: Status, d: nat, call: Call): Status {
    if !status.Pending? then status
    else match call
      case Ack => Acked(d)
      case Term => Termed(d)
      case _ => status
  }

  function Apply<U>(cfg: Setup<U>, s: State<U>, e: Event): State<U>
    requires Enabled(cfg, s, e)
  {
    match e
    case Deliver(n) => s.(deliveries := s.deliveries + [n], working := s.working[n := 0])
    case PublishOne(d) =>
      s.(log := s.log + [Publication(d, Plan(cfg, d)[s.working[d]])], working := s.working[d := s.working[d] + 1])
    case Settle(d, lost) =>
      s.(working := s.working - {d},
         settled := s.settled[d := Signal(cfg, d)],
         status := if lost then s.status else Settled(s.status, d, Signal(cfg, d)))
  }

  ghost predicate Next<U(!new)>(cfg: Setup<U>, s: State<U>, s': State<U>) {
    exists e :: Enabled(cfg, s, e) && s' == Apply(cfg, s, e)
  }

  ghost predicate IsRun<U(!new)>(cfg: Setup<U>, run: seq<State<U>>) {
    && |run| > 0 && Init(run[0])
    && forall i :: 0 <= i < |run| - 1 ==> Next(cfg, run[i], run[i + 1])
  }

  lemma LastEvent<U(!new)>(cfg: Setup<U>, run: seq<State<U>>) returns (before: seq<State<U>>, e: Event)
    requires IsRun(cfg, run) && |run| > 1
    ensures before == run[..|run| - 1] && IsRun(cfg, before)
    ensures Enabled(cfg, before[|before| - 1], e) && run[|run| - 1] == Apply(cfg, before[|before| - 1], e)
  {
    before := run[..|run| - 1];
    forall i | 0 <= i < |before| - 1 ensures Next(cfg, before[i], before[i + 1]) {
      assert Next(cfg, run[i], run[i + 1]);
    }
    assert Next(cfg, run[|run| - 2], run[|run| - 2 + 1]);
    e :| Enabled(cfg, run[|run| - 2], e) && run[|run| - 1] == Apply(cfg, run[|run| - 2], e);
  }

  // ---------------------------------------------------------------------------
  // Invariants
  // ---------------------------------------------------------------------------

  /** What one delivery published, in order. */
  function PublishedBy<U>(log: seq<Publication<U>>, d: nat): seq<U> {
    if log == [] then []
    else
      var before, last := PublishedBy(log[..|log| - 1], d), log[|log| - 1];
      if last.delivery == d then before + [last.item] else before
  }

  lemma PublishedByPush<U>(log: seq<Publication<U>>, p: Publication<U>, d: nat)
    ensures PublishedBy(log + [p], d)
         == if p.delivery == d then PublishedBy(log, d) + [p.item] else PublishedBy(log, d)
  {
    assert (log + [p])[..|log|] == log;
  }

  /** How much of its plan a delivery has published. */
  function Progress<U>(cfg: Setup<U>, s: State<U>, d: nat): nat {
    if d in s.working then s.working[d] else if d in s.settled then |Plan(cfg, d)| else 0
  }

  ghost predicate Inv<U(!new)>(cfg: Setup<U>, s: State<U>) {
    && (forall d | d in s.working :: 1 <= d <= Last(s.deliveries) && d !in s.settled)
    && (forall d | d in s.settled :: 1 <= d <= Last(s.deliveries) && s.settled[d] == Signal(cfg, d))
    && (forall d: nat :: Progress(cfg, s, d) <= |Plan(cfg, d)|)
    && (forall d: nat :: PublishedBy(s.log, d) == Plan(cfg, d)[..Progress(cfg, s, d)])
    && (s.status.Acked? ==> s.status.through in s.settled && s.settled[s.status.through] == Ack)
    && (s.status.Termed? ==> s.status.through in s.settled && s.settled[s.status.through] == Term)
  }

  /** A delivery in progress publishes the next item of its plan. */
  lemma PublishedNext<U(!new)>(cfg: Setup<U>, s: State<U>, n: nat, log: seq<Publication<U>>, d: nat)
    requires Enabled(cfg, s, PublishOne(n)) && Progress(cfg, s, d) <= |Plan(cfg, d)|
    requires PublishedBy(s.log, d) == Plan(cfg, d)[..Progress(cfg, s, d)]
    requires log == s.log + [Publication(n, Plan(cfg, n)[s.working[n]])]
    ensures var k := Progress(cfg, s, d) + if d == n then 1 else 0;
            k <= |Plan(cfg, d)| && PublishedBy(log, d) == Plan(cfg, d)[..k]
  {
    PublishedByPush(s.log, Publication(n, Plan(cfg, n)[s.working[n]]), d);
    if d == n {
      var plan, k := Plan(cfg, n), s.working[n];
      assert plan[..k + 1] == plan[..k] + [plan[k]];
    }
  }

  lemma InvPublish<U(!new)>(cfg: Setup<U>, s: State<U>, n: nat)
    requires Inv(cfg, s) && Enabled(cfg, s, PublishOne(n))
    ensures Inv(cfg, Apply(cfg, s, PublishOne(n)))
  {
    var s' := Apply(cfg, s, PublishOne(n));
    forall d: nat
      ensures Progress(cfg, s', d) <= |Plan(cfg, d)|
      ensures PublishedBy(s'.log, d) == Plan(cfg, d)[..Progress(cfg, s', d)]
    {
      PublishedNext(cfg, s, n, s'.log, d);
      assert Progress(cfg, s', d) == Progress(cfg, s, d) + if d == n then 1 else 0;
    }
  }

  lemma InvSettle<U(!new)>(cfg: Setup<U>, s: State<U>, n: nat, lost: bool)
    requires Inv(cfg, s) && Enabled(cfg, s, Settle(n, lost))
    ensures Inv(cfg, Apply(cfg, s, Settle(n, lost)))
  {
    var s' := Apply(cfg, s, Settle(n, lost));
    assert Progress(cfg, s, n) <= |Plan(cfg, n)|;
    forall d: nat
      ensures Progress(cfg, s', d) <= |Plan(cfg, d)|
      ensures PublishedBy(s'.log, d) == Plan(cfg, d)[..Progress(cfg, s', d)]
    {
      assert Progress(cfg, s', d) == Progress(cfg, s, d);
    }
  }

  lemma {:induction false} InvRun<U(!new)>(cfg: Setup<U>, run: seq<State<U>>)
    requires IsRun(cfg, run)
    ensures Inv(cfg, run[|run| - 1])
    decreases |run|
  {
    if |run| == 1 {
    } else {
      var before, e := LastEvent(cfg, run);
      InvRun(cfg, before);
      match e
      case Deliver(_) =>
      case PublishOne(d) => InvPublish(cfg, before[|before| - 1], d);
      case Settle(d, lost) => InvSettle(cfg, before[|before| - 1], d, lost);
    }
  }

  // ---------------------------------------------------------------------------
  // At least once
  // ---------------------------------------------------------------------------

  /** The items that a delivery has to publish. */
  function Items<U>(cfg: Setup<U>, d: nat): seq<U> {
    var c := cfg.circumstance(d);
    if c.decodes && c.accepted && c.expansion.Ok? then c.expansion.value else []
  }

  /** The delivery was decoded, passed the filter and published the whole of a successful expansion. */
  ghost predicate Complete<U>(cfg: Setup<U>, log: seq<Publication<U>>, d: nat) {
    var c := cfg.circumstance(d);
    c.decodes && (c.accepted ==> c.expansion.Ok? && PublishedBy(log, d) == c.expansion.value)
  }

  lemma PlanIsPrefix<U>(cfg: Setup<U>, d: nat)
    ensures Plan(cfg, d) <= Items(cfg, d)
  {
    var c := cfg.circumstance(d);
    Pipe.NilMeansComplete(cfg.layers, c.env, 0, c.accepted, c.expansion);
  }

  /** At any moment each delivery has published a prefix of its items: each at most once, in order. */
  lemma AtMostOncePerDelivery<U(!new)>(cfg: Setup<U>, run: seq<State<U>>, d: nat)
    requires IsRun(cfg, run)
    ensures PublishedBy(run[|run| - 1].log, d) <= Items(cfg, d)
  {
    InvRun(cfg, run);
    PlanIsPrefix(cfg, d);
  }

  /** Terminating is not mistaken for acknowledging: automatic mode, or an acker that can terminate. */
  predicate KeepsTermApart<U>(cfg: Setup<U>) {
    !cfg.manualAck || cfg.caps.terminator
  }

  lemma AckMeansComplete<U(!new)>(cfg: Setup<U>, d: nat)
    requires KeepsTermApart(cfg) && Signal(cfg, d) == Ack
    ensures var c := cfg.circumstance(d);
            c.decodes && (c.accepted ==> c.expansion.Ok? && Plan(cfg, d) == c.expansion.value)
  {
    var c := cfg.circumstance(d);
    Pipe.NilMeansComplete(cfg.layers, c.env, 0, c.accepted, c.expansion);
    assert Handled(cfg, d).err.None?;
  }

  /** In every run, a message that ends acked had a delivery that published everything. */
  lemma AtLeastOnce<U(!new)>(cfg: Setup<U>, run: seq<State<U>>)
    requires IsRun(cfg, run) && KeepsTermApart(cfg)
    ensures var s := run[|run| - 1];
            s.status.Acked? ==> s.status.through in s.settled && Complete(cfg, s.log, s.status.through)
  {
    InvRun(cfg, run);
    var s := run[|run| - 1];
    if s.status.Acked? {
      var d := s.status.through;
      AckMeansComplete(cfg, d);
      assert Progress(cfg, s, d) == |Plan(cfg, d)|;
      assert PublishedBy(s.log, d) == Plan(cfg, d)[..Progress(cfg, s, d)];
    }
  }

  ghost predicate NeverFalselyAcked(cfg: Setup<int>) {
    forall run: seq<State<int>> | IsRun(cfg, run) && run[|run| - 1].status.Acked? ::
      Complete(cfg, run[|run| - 1].log, run[|run| - 1].status.through)
  }

  /** An acker that cannot terminate, and a pipe whose expansion fails for good. */
  function FallbackSetup(caps: Caps): Setup<int> {
    Setup(true, FixedPolicy(0), caps, [],
          (d: nat) => Circumstance(true, true, Err(Error("poison", true)), true,
                                   Retry.Env((k: nat) => None, (i: nat, k: nat) => false), (k: nat) => None))
  }

  lemma FallbackAcks(caps: Caps)
    requires !caps.terminator
    ensures !NeverFalselyAcked(FallbackSetup(caps))
  {
    var cfg := FallbackSetup(caps);
    var s0: State<int> := State(Pending, [], map[], map[], []);
    assert Handled(cfg, 1).err == Some(Pipe.Wrapped("pipe flatmap: ", Error("poison", true)));
    assert Signal(cfg, 1) == Ack;
    assert Plan(cfg, 1) == [];
    assert Enabled(cfg, s0, Deliver(1));
    var s1 := Apply(cfg, s0, Deliver(1));
    assert Enabled(cfg, s1, Settle(1, false));
    var s2 := Apply(cfg, s1, Settle(1, false));
    var run := [s0, s1, s2];
    assert Next(cfg, run[0], run[1]) && Next(cfg, run[1], run[2]);
    assert IsRun(cfg, run);
    assert run[|run| - 1].status == Acked(1);
  }

  /**
   * Acked means published, for every policy, pipe and run, exactly when the subscriber settles
   * automatically or the acker can terminate: otherwise Term falls back to Ack.
   */
  lemma AtLeastOnceExactly(manualAck: bool, caps: Caps)
    ensures (forall cfg: Setup<int> | cfg.manualAck == manualAck && cfg.caps == caps :: NeverFalselyAcked(cfg))
            <==> (!manualAck || caps.terminator)
  {
    if !manualAck || caps.terminator {
      forall cfg: Setup<int> | cfg.manualAck == manualAck && cfg.caps == caps ensures NeverFalselyAcked(cfg) {
        forall run: seq<State<int>> | IsRun(cfg, run) && run[|run| - 1].status.Acked?
          ensures Complete(cfg, run[|run| - 1].log, run[|run| - 1].status.through)
        {
          AtLeastOnce(cfg, run);
        }
      }
    } else {
      FallbackAcks(caps);
      assert FallbackSetup(caps).manualAck == manualAck && FallbackSetup(caps).caps == caps;
    }
  }

  // ---------------------------------------------------------------------------
  // The end of a message
  // ---------------------------------------------------------------------------

  lemma Extend<U(!new)>(cfg: Setup<U>, run: seq<State<U>>, e: Event) returns (longer: seq<State<U>>)
    requires IsRun(cfg, run) && Enabled(cfg, run[|run| - 1], e)
    ensures IsRun(cfg, longer) && run <= longer && longer[|longer| - 1] == Apply(cfg, run[|run| - 1], e)
  {
    longer := run + [Apply(cfg, run[|run| - 1], e)];
    forall i | 0 <= i < |longer| - 1 ensures Next(cfg, longer[i], longer[i + 1]) {
      if i < |run| - 1 {
        assert Next(cfg, run[i], run[i + 1]);
      }
    }
  }

  /** Once the server has counted the message as acked or terminated it is not delivered any more. */
  lemma {:induction false} EndIsFinal<U(!new)>(cfg: Setup<U>, run: seq<State<U>>, from: nat)
    requires IsRun(cfg, run) && from < |run| && !run[from].status.Pending?
    ensures run[|run| - 1].status == run[from].status && run[|run| - 1].deliveries == run[from].deliveries
    decreases |run|
  {
    if from == |run| - 1 {
    } else {
      var before, e := LastEvent(cfg, run);
      assert before[from] == run[from];
      EndIsFinal(cfg, before, from);
    }
  }

  /** The i-th step of the run is this event. */
  ghost predicate StepAt<U(!new)>(cfg: Setup<U>, run: seq<State<U>>, i: nat, e: Event) {
    i + 1 < |run| && Enabled(cfg, run[i], e) && run[i + 1] == Apply(cfg, run[i], e)
  }

  /** The calls after which the server does not deliver again. */
  predicate Ends(c: Call) {
    c.Ack? || c.Term?
  }

  /** After an Ack or a Term that was not lost no continuation delivers the message again. */
  lemma SignalEnds<U(!new)>(cfg: Setup<U>, run: seq<State<U>>, i: nat, d: nat)
    requires IsRun(cfg, run) && StepAt(cfg, run, i, Settle(d, false))
    requires Ends(Signal(cfg, d))
    ensures run[|run| - 1].deliveries == run[i].deliveries && !run[|run| - 1].status.Pending?
    ensures run[i].status.Pending? ==>
              run[|run| - 1].status == if Signal(cfg, d).Ack? then Acked(d) else Termed(d)
  {
    EndIsFinal(cfg, run, i + 1);
  }

  /** After a nak, or any signal that was lost, a message that was pending can be delivered again. */
  lemma ComesBack<U(!new)>(cfg: Setup<U>, run: seq<State<U>>, d: nat, lost: bool, n: nat)
    returns (longer: seq<State<U>>)
    requires IsRun(cfg, run) && run[|run| - 1].status.Pending? && Enabled(cfg, run[|run| - 1], Settle(d, lost))
    requires lost || !Ends(Signal(cfg, d))
    requires n > Last(run[|run| - 1].deliveries)
    ensures IsRun(cfg, longer) && run <= longer
    ensures d in longer[|longer| - 1].settled && longer[|longer| - 1].deliveries == run[|run| - 1].deliveries + [n]
  {
    longer := Extend(cfg, run, Settle(d, lost));
    longer := Extend(cfg, longer, Deliver(n));
    InvRun(cfg, longer);
  }

  /** A delivery publishes the rest of its plan. */
  lemma {:induction false} FinishesPlan<U(!new)>(cfg: Setup<U>, run: seq<State<U>>, d: nat)
    returns (longer: seq<State<U>>)
    requires IsRun(cfg, run) && d in run[|run| - 1].working && run[|run| - 1].working[d] <= |Plan(cfg, d)|
    ensures IsRun(cfg, longer) && run <= longer && longer[|longer| - 1].status == run[|run| - 1].status
    ensures Enabled(cfg, longer[|longer| - 1], Settle(d, false))
    decreases |Plan(cfg, d)| - run[|run| - 1].working[d]
  {
    if run[|run| - 1].working[d] == |Plan(cfg, d)| {
      longer := run;
    } else {
      var next := Extend(cfg, run, PublishOne(d));
      longer := FinishesPlan(cfg, next, d);
    }
  }

  /** From every reachable state a pending message can end acked by a delivery that handles it well. */
  lemma CanEndAcked<U(!new)>(cfg: Setup<U>, run: seq<State<U>>, n: nat) returns (longer: seq<State<U>>)
    requires IsRun(cfg, run) && run[|run| - 1].status.Pending? && n > Last(run[|run| - 1].deliveries)
    requires cfg.circumstance(n).decodes && Handled(cfg, n).err.None?
    ensures IsRun(cfg, longer) && run <= longer && longer[|longer| - 1].status == Acked(n)
  {
    longer := Extend(cfg, run, Deliver(n));
    longer := FinishesPlan(cfg, longer, n);
    assert Signal(cfg, n) == Ack;
    longer := Extend(cfg, longer, Settle(n, false));
  }

  // ---------------------------------------------------------------------------
  // One piece per delivery
  // ---------------------------------------------------------------------------

  function Tagged<U>(d: nat, items: seq<U>): seq<Publication<U>> {
    seq(|items|, i requires 0 <= i < |items| => Publication(d, items[i]))
  }

  /** What deliveries 1 to n published, one delivery after the other. */
  function Grouped<U>(log: seq<Publication<U>>, n: nat): seq<Publication<U>> {
    if n == 0 then [] else Grouped(log, n - 1) + Tagged(n, PublishedBy(log, n))
  }

  /** Once a delivery has published, no earlier one does. */
  predicate Ordered<U>(log: seq<Publication<U>>) {
    forall i, j | 0 <= i < j < |log| :: log[i].delivery <= log[j].delivery
  }

  predicate Within<U>(log: seq<Publication<U>>, n: nat) {
    forall i | 0 <= i < |log| :: 1 <= log[i].delivery <= n
  }

  lemma {:induction false} GroupedIsOrdered<U>(log: seq<Publication<U>>, n: nat)
    ensures Ordered(Grouped(log, n)) && Within(Grouped(log, n), n)
  {
    if n == 0 {
    } else {
      GroupedIsOrdered(log, n - 1);
    }
  }

  lemma {:induction false} NothingPublished<U>(log: seq<Publication<U>>, d: nat)
    requires forall i | 0 <= i < |log| :: log[i].delivery != d
    ensures PublishedBy(log, d) == []
  {
    if log == [] {
    } else {
      NothingPublished(log[..|log| - 1], d);
    }
  }

  /** Deliveries after the last one that published add nothing. */
  lemma {:induction false} GroupedStops<U>(log: seq<Publication<U>>, k: nat, n: nat)
    requires Within(log, k) && k <= n
    ensures Grouped(log, n) == Grouped(log, k)
    decreases n
  {
    if n == k {
    } else {
      GroupedStops(log, k, n - 1);
      NothingPublished(log, n);
      assert Tagged(n, PublishedBy(log, n)) == [];
    }
  }

  /** A publication belongs to the piece of its own delivery. */
  lemma {:induction false} GroupedBelow<U>(log: seq<Publication<U>>, p: Publication<U>, n: nat)
    requires n < p.delivery
    ensures Grouped(log + [p], n) == Grouped(log, n)
  {
    if n == 0 {
    } else {
      GroupedBelow(log, p, n - 1);
      PublishedByPush(log, p, n);
    }
  }

  lemma GroupedPush<U>(log: seq<Publication<U>>, p: Publication<U>)
    requires p.delivery > 0
    ensures Grouped(log + [p], p.delivery) == Grouped(log, p.delivery) + [p]
  {
    var d := p.delivery;
    var items := PublishedBy(log, d);
    GroupedBelow(log, p, d - 1);
    PublishedByPush(log, p, d);
    assert Tagged(d, items + [p.item]) == Tagged(d, items) + [p];
    assert Grouped(log, d - 1) + (Tagged(d, items) + [p]) == Grouped(log, d - 1) + Tagged(d, items) + [p];
  }

  lemma {:induction false} OrderedIsGrouped<U>(log: seq<Publication<U>>, n: nat)
    requires Ordered(log) && Within(log, n)
    ensures Grouped(log, n) == log
    decreases |log|
  {
    if log == [] {
      GroupedStops(log, 0, n);
    } else {
      var before, p := log[..|log| - 1], log[|log| - 1];
      assert log == before + [p];
      assert Within(before, p.delivery) && Within(log, p.delivery);
      OrderedIsGrouped(before, p.delivery);
      GroupedPush(before, p);
      GroupedStops(log, p.delivery, n);
    }
  }

  /** Every delivery has come to a point within its plan. */
  ghost predicate OnPlan<U(!new)>(cfg: Setup<U>, s: State<U>) {
    forall d: nat :: Progress(cfg, s, d) <= |Plan(cfg, d)|
  }

  /** For each delivery from 1 to n, in this order, as much of its plan as it has published. */
  ghost function Concat<U(!new)>(cfg: Setup<U>, s: State<U>, n: nat): seq<Publication<U>>
    requires OnPlan(cfg, s)
  {
    if n == 0 then [] else Concat(cfg, s, n - 1) + Tagged(n, Plan(cfg, n)[..Progress(cfg, s, n)])
  }

  lemma {:induction false} ConcatIsGrouped<U(!new)>(cfg: Setup<U>, s: State<U>, n: nat)
    requires Inv(cfg, s)
    ensures OnPlan(cfg, s) && Concat(cfg, s, n) == Grouped(s.log, n)
  {
    if n == 0 {
    } else {
      ConcatIsGrouped(cfg, s, n - 1);
      assert PublishedBy(s.log, n) == Plan(cfg, n)[..Progress(cfg, s, n)];
    }
  }

  lemma {:induction false} PublishedByMember<U>(log: seq<Publication<U>>, i: nat)
    requires i < |log|
    ensures PublishedBy(log, log[i].delivery) != []
    decreases |log|
  {
    if i == |log| - 1 {
    } else {
      PublishedByMember(log[..|log| - 1], i);
    }
  }

  /** Only deliveries that took place have published. */
  lemma LogWithin<U(!new)>(cfg: Setup<U>, s: State<U>)
    requires Inv(cfg, s)
    ensures Within(s.log, Last(s.deliveries))
  {
    forall i | 0 <= i < |s.log| ensures 1 <= s.log[i].delivery <= Last(s.deliveries) {
      var d := s.log[i].delivery;
      PublishedByMember(s.log, i);
      assert PublishedBy(s.log, d) == Plan(cfg, d)[..Progress(cfg, s, d)];
    }
  }

  /**
   * In every run, whatever overlaps, the successful publishes are the concatenation of one prefix of
   * its items per delivery if and only if no delivery publishes after a later one has.
   */
  lemma ConcatenationExactly<U(!new)>(cfg: Setup<U>, run: seq<State<U>>)
    requires IsRun(cfg, run)
    ensures var s := run[|run| - 1];
            && OnPlan(cfg, s) && (forall d: nat :: Plan(cfg, d) <= Items(cfg, d))
            && (s.log == Concat(cfg, s, Last(s.deliveries)) <==> Ordered(s.log))
  {
    var s := run[|run| - 1];
    var n := Last(s.deliveries);
    InvRun(cfg, run);
    ConcatIsGrouped(cfg, s, n);
    GroupedIsOrdered(s.log, n);
    LogWithin(cfg, s);
    if Ordered(s.log) {
      OrderedIsGrouped(s.log, n);
    }
    forall d: nat ensures Plan(cfg, d) <= Items(cfg, d) {
      PlanIsPrefix(cfg, d);
    }
  }

  /**
   * A message that ends acked: the piece of the acked delivery is its whole plan, where Term and Ack
   * are kept apart all items of an accepted message. In an ordered log to which no later delivery
   * has published it is the last piece.
   */
  lemma AckedPiece<U(!new)>(cfg: Setup<U>, run: seq<State<U>>)
    requires IsRun(cfg, run) && run[|run| - 1].status.Acked?
    ensures var s, d := run[|run| - 1], run[|run| - 1].status.through;
            && d > 0 && OnPlan(cfg, s) && PublishedBy(s.log, d) == Plan(cfg, d)
            && (Ordered(s.log) && Within(s.log, d) ==> s.log == Concat(cfg, s, d - 1) + Tagged(d, Plan(cfg, d)))
            && (KeepsTermApart(cfg) && cfg.circumstance(d).accepted ==> Plan(cfg, d) == Items(cfg, d))
  {
    var s, d := run[|run| - 1], run[|run| - 1].status.through;
    InvRun(cfg, run);
    assert PublishedBy(s.log, d) == Plan(cfg, d)[..Progress(cfg, s, d)];
    assert Progress(cfg, s, d) == |Plan(cfg, d)|;
    ConcatIsGrouped(cfg, s, d);
    if Ordered(s.log) && Within(s.log, d) {
      OrderedIsGrouped(s.log, d);
    }
    if KeepsTermApart(cfg) {
      AckMeansComplete(cfg, d);
    }
  }

  // ---------------------------------------------------------------------------
  // When the log is ordered
  // ---------------------------------------------------------------------------

  /** Only the latest delivery publishes; earlier ones may be hanging, or settle late. */
  ghost predicate LatestPublishes<U>(s: State<U>, s': State<U>) {
    s'.log == s.log || (|s'.log| > |s.log| && s'.log[|s.log|].delivery == Last(s.deliveries))
  }

  /** Earlier deliveries that hang, because their consumer crashed or is slow, do no harm by themselves. */
  lemma {:induction false} LatestPublishesInOrder<U(!new)>(cfg: Setup<U>, run: seq<State<U>>)
    requires IsRun(cfg, run) && forall i :: 0 <= i < |run| - 1 ==> LatestPublishes(run[i], run[i + 1])
    ensures Ordered(run[|run| - 1].log)
    decreases |run|
  {
    if |run| == 1 {
    } else {
      var before, e := LastEvent(cfg, run);
      var s := before[|before| - 1];
      forall i | 0 <= i < |before| - 1 ensures LatestPublishes(before[i], before[i + 1]) {
        assert LatestPublishes(run[i], run[i + 1]);
      }
      LatestPublishesInOrder(cfg, before);
      InvRun(cfg, before);
      LogWithin(cfg, s);
      assert LatestPublishes(run[|run| - 2], run[|run| - 2 + 1]);
    }
  }

  /** Only the latest delivery is being handled. */
  ghost predicate OneAtATime<U>(s: State<U>) {
    forall d | d in s.working :: d == Last(s.deliveries)
  }

  /** When deliveries do not overlap the log is ordered, and the acked delivery is the latest one. */
  lemma {:induction false} OneAtATimeInOrder<U(!new)>(cfg: Setup<U>, run: seq<State<U>>)
    requires IsRun(cfg, run) && forall i :: 0 <= i < |run| ==> OneAtATime(run[i])
    ensures var s := run[|run| - 1];
            && Ordered(s.log) && Within(s.log, Last(s.deliveries))
            && (s.status.Acked? ==> s.status.through == Last(s.deliveries))
    decreases |run|
  {
    InvRun(cfg, run);
    LogWithin(cfg, run[|run| - 1]);
    if |run| == 1 {
    } else {
      var before, e := LastEvent(cfg, run);
      assert forall i | 0 <= i < |before| :: before[i] == run[i];
      OneAtATimeInOrder(cfg, before);
      assert OneAtATime(before[|before| - 1]);
    }
  }

  /** A pipe that publishes each message unchanged. */
  function ForwardSetup(): Setup<int> {
    Setup(false, FixedPolicy(0), JS_CAPS, [],
          (d: nat) => Circumstance(true, true, Ok([0]), true,
                                   Retry.Env((k: nat) => None, (i: nat, k: nat) => false), (k: nat) => None))
  }

  /** The log is not always ordered: a slow first delivery publishes after the second one. */
  lemma OverlapBreaksOrder() returns (run: seq<State<int>>)
    ensures IsRun(ForwardSetup(), run) && !Ordered(run[|run| - 1].log)
  {
    var cfg := ForwardSetup();
    forall d: nat ensures Plan(cfg, d) == [0] {
      Pipe.NilMeansComplete(cfg.layers, cfg.circumstance(d).env, 0, true, Ok([0]));
      assert Retry.Published([], cfg.circumstance(d).env, 0).err == None;
      assert [0][1..] == [];
    }
    run := [State(Pending, [], map[], map[], [])];
    run := Extend(cfg, run, Deliver(1));
    run := Extend(cfg, run, Deliver(2));
    run := Extend(cfg, run, PublishOne(2));
    run := Extend(cfg, run, PublishOne(1));
    var log := run[|run| - 1].log;
    assert log == [Publication(2, 0), Publication(1, 0)];
    assert log[0].delivery > log[1].delivery;
  }

  // ---------------------------------------------------------------------------
  // Bounded retries
  // ---------------------------------------------------------------------------

  predicate IsNak(c: Call) {
    c.Nak? || c.NakWithDelay?
  }

  /** The deliveries that were nak'd. */
  function Naks<U>(s: State<U>): set<nat> {
    set d | d in s.settled && IsNak(s.settled[d])
  }

  /** RetryAck with a backoff policy that gives up at the n-th delivery. */
  ghost predicate GivesUpAt<U>(cfg: Setup<U>, n: nat) {
    && cfg.manualAck && n > 0
    && exists initial, maxDelay, c: Config ::
         c.maxDeliveries == n && cfg.policy == BackoffPolicy(initial, maxDelay, c)
  }

  lemma {:induction false} BelowCardinality(s: set<nat>, n: nat)
    requires n > 0 && forall d | d in s :: 1 <= d < n
    ensures |s| <= n - 1
  {
    if n == 1 {
      assert s == {};
    } else {
      BelowCardinality(s - {n - 1}, n - 1);
    }
  }

  /** RetryAck learns the count of the d-th delivery. */
  predicate Counts<U>(cfg: Setup<U>, d: nat) {
    cfg.caps.reporter && cfg.circumstance(d).counted
  }

  /**
   * In any run, also when ack timeouts add deliveries, only deliveries before the n-th and those
   * without a count are nak'd, so at most n-1 if from the n-th on all are counted. A counted failure
   * from the n-th delivery on terminates the message.
   */
  lemma BoundedRetries<U(!new)>(cfg: Setup<U>, n: nat, run: seq<State<U>>)
    requires IsRun(cfg, run) && GivesUpAt(cfg, n)
    ensures forall d | d in Naks(run[|run| - 1]) :: 1 <= d && (d < n || !Counts(cfg, d))
    ensures (forall d: nat | d >= n :: Counts(cfg, d)) ==> |Naks(run[|run| - 1])| <= n - 1
    ensures forall d: nat | d >= n && Counts(cfg, d) && cfg.circumstance(d).decodes && Handled(cfg, d).err.Some? ::
              Signal(cfg, d) == if cfg.caps.terminator then Term else Ack
  {
    InvRun(cfg, run);
    var s := run[|run| - 1];
    forall d | d in Naks(s) ensures 1 <= d && (d < n || !Counts(cfg, d)) {
      assert IsNak(Signal(cfg, d));
    }
    if forall d: nat | d >= n :: Counts(cfg, d) {
      BelowCardinality(Naks(s), n);
    }
  }

  /** The call that RetryAck's verdict on a failure comes down to. */
  function Reply(caps: Caps, policy: Policy, e: Error, d: nat): Call {
    Dispatch(caps, Verdict(policy, Some(e), if caps.reporter then d else 0)).value
  }

  /** The limit has its effect for every failure exactly when the acker reports delivery counts. */
  lemma ReplyNeedsCounts(caps: Caps, initial: int, maxDelay: int, c: Config)
    requires c.maxDeliveries > 0
    ensures (forall e: Error, d: nat | d >= c.maxDeliveries ::
              !IsNak(Reply(caps, BackoffPolicy(initial, maxDelay, c), e, d)))
            <==> caps.reporter
  {
    if !caps.reporter {
      var e, policy := Error("", false), BackoffPolicy(initial, maxDelay, c);
      assert policy(e, 0).action == RetryNakWithDelay;
      assert IsNak(Reply(caps, policy, e, c.maxDeliveries));
    }
  }

  /** A pipe whose expansion always fails with an error that may be retried. */
  function FailingSetup(caps: Caps, policy: Policy, counted: nat -> bool): Setup<int> {
    Setup(true, policy, caps, [],
          (d: nat) => Circumstance(true, true, Err(Error("", false)), counted(d),
                                   Retry.Env((k: nat) => None, (i: nat, k: nat) => false), (k: nat) => None))
  }

  /** A failure below the limit or without a count is nak'd. */
  lemma FailureIsNakd(cfg: Setup<int>, counted: nat -> bool, initial: int, maxDelay: int, c: Config, d: nat)
    requires cfg == FailingSetup(cfg.caps, BackoffPolicy(initial, maxDelay, c), counted)
    requires c.maxDeliveries == 0 || d < c.maxDeliveries || !Counts(cfg, d)
    ensures Plan(cfg, d) == [] && IsNak(Signal(cfg, d))
  {
    var e := Pipe.Wrapped("pipe flatmap: ", Error("", false));
    assert Handled(cfg, d).err == Some(e) && !IsNonRetryable(e);
    assert cfg.policy(e, Delivered(PortOf(cfg, d))).action == RetryNakWithDelay;
  }

  /** The message is delivered once more and nak'd. */
  lemma Redelivered(cfg: Setup<int>, n: nat, run: seq<State<int>>) returns (longer: seq<State<int>>)
    requires IsRun(cfg, run) && run[|run| - 1].status.Pending? && Last(run[|run| - 1].deliveries) < n
    requires Plan(cfg, n) == [] && IsNak(Signal(cfg, n))
    ensures IsRun(cfg, longer) && longer[|longer| - 1].status.Pending? && Last(longer[|longer| - 1].deliveries) == n
    ensures n !in Naks(run[|run| - 1]) && Naks(longer[|longer| - 1]) == Naks(run[|run| - 1]) + {n}
  {
    longer := Extend(cfg, run, Deliver(n));
    longer := Extend(cfg, longer, Settle(n, false));
    InvRun(cfg, run);
    assert n !in run[|run| - 1].settled;
    assert longer[|longer| - 1].settled == run[|run| - 1].settled[n := Signal(cfg, n)];
  }

  /** While failures are nak'd the message comes back. */
  lemma {:induction false} NakdAgain(cfg: Setup<int>, n: nat) returns (run: seq<State<int>>)
    requires forall d: nat | 1 <= d <= n :: Plan(cfg, d) == [] && IsNak(Signal(cfg, d))
    ensures IsRun(cfg, run) && run[|run| - 1].status.Pending? && Last(run[|run| - 1].deliveries) == n
    ensures |Naks(run[|run| - 1])| == n
  {
    if n == 0 {
      run := [State(Pending, [], map[], map[], [])];
    } else {
      var before := NakdAgain(cfg, n - 1);
      run := Redelivered(cfg, n, before);
    }
  }

  /** A pipe with manual acknowledgement, this acker and policy, and these deliveries counted. */
  ghost predicate Fits(cfg: Setup<int>, caps: Caps, counted: nat -> bool, initial: int, maxDelay: int, c: Config) {
    && cfg.manualAck && cfg.caps == caps && cfg.policy == BackoffPolicy(initial, maxDelay, c)
    && forall d: nat :: cfg.circumstance(d).counted == counted(d)
  }

  /** The limit holds in every run of every such pipe. */
  ghost predicate LimitHolds(caps: Caps, counted: nat -> bool, initial: int, maxDelay: int, c: Config) {
    forall cfg: Setup<int>, run: seq<State<int>> | Fits(cfg, caps, counted, initial, maxDelay, c) && IsRun(cfg, run) ::
      |Naks(run[|run| - 1])| < c.maxDeliveries
  }

  /** Without delivery counts the naks of one message exceed every bound. */
  lemma UnboundedNaks(caps: Caps, initial: int, maxDelay: int, c: Config, n: nat)
    returns (cfg: Setup<int>, run: seq<State<int>>)
    requires !caps.reporter
    ensures cfg.manualAck && cfg.caps == caps && cfg.policy == BackoffPolicy(initial, maxDelay, c)
    ensures IsRun(cfg, run) && |Naks(run[|run| - 1])| == n
  {
    cfg := FailingSetup(caps, BackoffPolicy(initial, maxDelay, c), (d: nat) => true);
    forall d: nat ensures Plan(cfg, d) == [] && IsNak(Signal(cfg, d)) {
      FailureIsNakd(cfg, (d: nat) => true, initial, maxDelay, c, d);
    }
    run := NakdAgain(cfg, n);
  }

  /** One uncounted delivery from the n-th on suffices for an n-th nak. */
  lemma NakBeyondLimit(caps: Caps, counted: nat -> bool, initial: int, maxDelay: int, c: Config, d: nat)
    requires c.maxDeliveries > 0 && d >= c.maxDeliveries && !(caps.reporter && counted(d))
    ensures !LimitHolds(caps, counted, initial, maxDelay, c)
  {
    var cfg := FailingSetup(caps, BackoffPolicy(initial, maxDelay, c), counted);
    forall k: nat | k < c.maxDeliveries || k == d ensures Plan(cfg, k) == [] && IsNak(Signal(cfg, k)) {
      FailureIsNakd(cfg, counted, initial, maxDelay, c, k);
    }
    var before := NakdAgain(cfg, c.maxDeliveries - 1);
    var run := Redelivered(cfg, d, before);
    assert Fits(cfg, caps, counted, initial, maxDelay, c);
  }

  /** Every delivery from the n-th on reaches RetryAck with its count. */
  ghost predicate AllCounted(caps: Caps, counted: nat -> bool, n: nat) {
    forall d: nat | d >= n :: Learned(caps, counted, d)
  }

  predicate Learned(caps: Caps, counted: nat -> bool, d: nat) {
    caps.reporter && counted(d)
  }

  /**
   * A limit of n keeps the naks of all runs of all pipes below n exactly when RetryAck learns the
   * count of every delivery from the n-th on.
   */
  lemma BoundNeedsCounts(caps: Caps, counted: nat -> bool, initial: int, maxDelay: int, c: Config)
    requires c.maxDeliveries > 0
    ensures LimitHolds(caps, counted, initial, maxDelay, c) <==> AllCounted(caps, counted, c.maxDeliveries)
  {
    if AllCounted(caps, counted, c.maxDeliveries) {
      forall cfg: Setup<int>, run: seq<State<int>> |
        Fits(cfg, caps, counted, initial, maxDelay, c) && IsRun(cfg, run)
        ensures |Naks(run[|run| - 1])| < c.maxDeliveries
      {
        assert GivesUpAt(cfg, c.maxDeliveries);
        forall d: nat | d >= c.maxDeliveries ensures Counts(cfg, d) {
          assert Learned(caps, counted, d);
        }
        BoundedRetries(cfg, c.maxDeliveries, run);
      }
    } else {
      var d: nat :| d >= c.maxDeliveries && !Learned(caps, counted, d);
      NakBeyondLimit(caps, counted, initial, maxDelay, c, d);
    }
  }
}
