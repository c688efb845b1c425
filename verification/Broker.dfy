/**
 * The channel bus with any number of publishing goroutines, channel subscribers and ToChan bridges,
 * as a state machine over the single steps of all goroutines: taking the bus mutex, copying the
 * snapshot one channel at a time, one channel send, one receive, one handler return.
 */
module Broker {
  import opened Core
  import opened Subscriptions

  type Payload = string

  /** A message is identified by the publish call that sends it. */
  datatype Entry = Entry(thread: nat, call: nat, payload: Payload)

  // ---------------------------------------------------------------------------
  // One subscription: SubscribeWithReady, and the ToChan goroutine around it
  // ---------------------------------------------------------------------------

  /** How far SubscribeWithReady has come; Closed is ToChan's deferred close after its return. */
  datatype Stage = Created | Registered | Idle | Handling(m: Entry) | Leaving | Returned | Closed

  /** A handled message; ToChan's handler may give up on it when its context has ended. */
  datatype Handled = Handled(e: Entry, passed: bool)

  /**
   * The channel of one subscription. `bridge` is the buffer size given to ToChan, if it is one, with
   * its output channel `out` and what the consumer has taken from it.
   */
  datatype Cell = Cell(
    subject: string, cap: nat, bridge: Option<nat>,
    stage: Stage, done: bool, readies: nat, ticket: nat,
    buf: seq<Entry>, accepted: seq<Entry>, handled: seq<Handled>,
    out: seq<Entry>, taken: seq<Entry>, closes: nat, panicked: bool
  )

  datatype Local = Ready | Receive | Finish | Forward | Handoff | Drop | Cancel | Leave | Close | Take

  predicate LocalEnabled(x: Cell, l: Local) {
    match l
    case Ready => x.stage == Registered
    case Receive => x.stage == Idle && x.buf != []
    case Finish => x.stage.Handling? && x.bridge.None?
    case Forward => x.stage.Handling? && x.bridge.Some? && (|x.out| < x.bridge.value || x.closes > 0)
    case Handoff => x.stage.Handling? && x.bridge.Some? && x.out == [] && x.closes == 0
    case Drop => x.stage.Handling? && x.bridge.Some? && x.done
    case Cancel => true
    case Leave => x.stage == Idle && x.done
    case Close => x.stage == Returned && x.bridge.Some?
    case Take => x.out != []
  }

  function LocalApply(x: Cell, l: Local): Cell
    requires LocalEnabled(x, l)
  {
    match l
    case Ready => x.(stage := Idle, readies := x.readies + 1)
    case Receive => x.(stage := Handling(x.buf[0]), buf := x.buf[1..])
    case Finish => Passed(x)
    case Forward =>
      // A send on a closed channel panics.
      if x.closes > 0 then x.(panicked := true) else Passed(x).(out := x.out + [x.stage.m])
    case Handoff => Passed(x).(taken := x.taken + [x.stage.m])
    case Drop => x.(stage := Idle, handled := x.handled + [Handled(x.stage.m, false)])
    case Cancel => x.(done := true)
    case Leave => x.(stage := Leaving)
    case Close => x.(stage := Closed, closes := x.closes + 1, panicked := x.panicked || x.closes > 0)
    case Take => x.(out := x.out[1..], taken := x.taken + [x.out[0]])
  }

  function Passed(x: Cell): Cell
    requires x.stage.Handling?
  {
    x.(stage := Idle, handled := x.handled + [Handled(x.stage.m, true)])
  }

  /** The bus lists the channel. */
  predicate Listed(x: Cell) {
    x.stage.Registered? || InWindow(x)
  }

  /** Between ready() and the deregistration. */
  predicate InWindow(x: Cell) {
    x.stage.Idle? || x.stage.Handling? || x.stage.Leaving?
  }

  function Entries(hs: seq<Handled>): seq<Entry> {
    if hs == [] then [] else Entries(hs[..|hs| - 1]) + [hs[|hs| - 1].e]
  }

  function PassedOn(hs: seq<Handled>): seq<Entry> {
    if hs == [] then []
    else PassedOn(hs[..|hs| - 1]) + if hs[|hs| - 1].passed then [hs[|hs| - 1].e] else []
  }

  function InHand(x: Cell): seq<Entry> {
    if x.stage.Handling? then [x.stage.m] else []
  }

  lemma HandledPush(hs: seq<Handled>, h: Handled)
    ensures Entries(hs + [h]) == Entries(hs) + [h.e]
    ensures PassedOn(hs + [h]) == PassedOn(hs) + if h.passed then [h.e] else []
  {
    assert (hs + [h])[..|hs|] == hs;
  }

  predicate CellOk(x: Cell) {
    && x.accepted == Entries(x.handled) + InHand(x) + x.buf
    && |x.buf| <= x.cap
    && (if x.bridge.None? then x.out == [] && x.taken == [] && x.stage != Closed
        else |x.out| <= x.bridge.value && PassedOn(x.handled) == x.taken + x.out)
    && (!x.done ==> forall i | 0 <= i < |x.handled| :: x.handled[i].passed)
    && x.readies == (if x.stage.Created? || x.stage.Registered? then 0 else 1)
    && x.closes == (if x.stage.Closed? then 1 else 0)
    && !x.panicked
    && (x.stage.Leaving? || x.stage.Returned? || x.stage.Closed? ==> x.done)
  }

  /** A channel that SubscribeWithReady has just made. */
  function Fresh(subject: string, cap: nat, bridge: Option<nat>): (x: Cell)
    ensures CellOk(x)
  {
    Cell(subject, cap, bridge, Created, false, 0, 0, [], [], [], [], [], 0, false)
  }

  /** The handler returns: the message in hand is handled, and passed on if it was not dropped. */
  lemma HandlingKeepsCell(x: Cell, passed: bool, y: Cell)
    requires CellOk(x) && x.stage.Handling? && (!passed ==> x.done)
    requires y == x.(stage := Idle, handled := x.handled + [Handled(x.stage.m, passed)], out := y.out, taken := y.taken)
    requires if x.bridge.None? then y.out == [] && y.taken == [] else |y.out| <= x.bridge.value
    requires x.bridge.Some? ==> y.taken + y.out == x.taken + x.out + if passed then [x.stage.m] else []
    ensures CellOk(y)
  {
    HandledPush(x.handled, Handled(x.stage.m, passed));
  }

  lemma ReceiveKeepsCell(x: Cell)
    requires CellOk(x) && LocalEnabled(x, Receive)
    ensures CellOk(LocalApply(x, Receive))
  {
    var y := LocalApply(x, Receive);
    assert InHand(x) == [] && InHand(y) == [x.buf[0]];
    assert Entries(x.handled) + InHand(x) + x.buf == Entries(x.handled) + InHand(y) + y.buf;
  }

  lemma TakeKeepsCell(x: Cell)
    requires CellOk(x) && LocalEnabled(x, Take)
    ensures CellOk(LocalApply(x, Take))
  {
    var y := LocalApply(x, Take);
    assert InHand(x) == InHand(y);
    assert x.taken + x.out == y.taken + y.out;
  }

  lemma LocalKeepsCell(x: Cell, l: Local)
    requires CellOk(x) && LocalEnabled(x, l)
    ensures CellOk(LocalApply(x, l))
  {
    var y := LocalApply(x, l);
    match l
    case Receive => ReceiveKeepsCell(x);
    case Take => TakeKeepsCell(x);
    case Finish => HandlingKeepsCell(x, true, y);
    case Forward =>
      assert x.taken + (x.out + [x.stage.m]) == x.taken + x.out + [x.stage.m];
      HandlingKeepsCell(x, true, y);
    case Handoff =>
      assert x.taken + x.out == x.taken && x.taken + [x.stage.m] + [] == x.taken + [x.stage.m];
      HandlingKeepsCell(x, true, y);
    case Drop =>
      assert x.taken + x.out + [] == x.taken + x.out;
      HandlingKeepsCell(x, false, y);
    case Ready =>
    case Cancel =>
    case Leave =>
    case Close =>
  }

  // ---------------------------------------------------------------------------
  // Publishing goroutines and the bus
  // ---------------------------------------------------------------------------

  /**
   * One call of Bus.publish: the copied snapshot, how many of its channels accepted the message, and
   * the result once there is one. `seen` remembers which subscriptions were between ready() and
   * deregistration when the snapshot was completed.
   */
  datatype Record = Record(
    e: Entry, subject: string, snapshot: seq<Chan>, sent: nat, seen: set<Chan>, ok: Option<bool>
  )

  datatype Pc = Quiet | Copying(e: Entry, subject: string, copied: seq<Chan>) | Sending(r: Record)

  datatype Thread = Thread(past: seq<Record>, done: bool, pc: Pc)

  /**
   * `writer` is the subscription that has announced itself to the bus mutex: from then on no copy of
   * a snapshot begins, and once those under way have ended it writes.
   */
  datatype State = State(
    chans: map<Chan, Cell>,
    lists: Table,
    threads: map<nat, Thread>,
    writer: Option<Chan>,
    next: nat
  )

  datatype Event =
    | Make(c: Chan, subject: string, cap: nat, bridge: Option<nat>)
    | Lock(c: Chan)
    | Write(c: Chan)
    | AtCell(c: Chan, l: Local)
    | Begin(t: nat, subject: string, payload: Payload)
    | CopyOne(t: nat)
    | CopyDone(t: nat)
    | Send(t: nat)
    | SendToWaiting(t: nat)
    | Abort(t: nat)
    | Return(t: nat)
    | CancelCall(t: nat)

  function ThreadOf(s: State, t: nat): Thread {
    if t in s.threads then s.threads[t] else Thread([], false, Quiet)
  }

  /** Who holds the read lock: the goroutines copying a snapshot. */
  predicate Reading(s: State, t: nat) {
    ThreadOf(s, t).pc.Copying?
  }

  ghost predicate NoReader(s: State) {
    forall t | t in s.threads :: !Reading(s, t)
  }

  /** The channel that a sending goroutine is at. */
  predicate AtChannel(s: State, t: nat) {
    var pc := ThreadOf(s, t).pc;
    pc.Sending? && pc.r.sent < |pc.r.snapshot| && pc.r.snapshot[pc.r.sent] in s.chans
  }

  function Target(s: State, t: nat): Cell
    requires AtChannel(s, t)
  {
    s.chans[ThreadOf(s, t).pc.r.snapshot[ThreadOf(s, t).pc.r.sent]]
  }

  ghost predicate Enabled(s: State, ev: Event) {
    match ev
    case Make(c, _, _, _) => c !in s.chans
    case Lock(c) =>
      c in s.chans && (s.chans[c].stage.Created? || s.chans[c].stage.Leaving?) && s.writer.None?
    case Write(c) => s.writer == Some(c) && c in s.chans && NoReader(s)
    case AtCell(c, l) => c in s.chans && LocalEnabled(s.chans[c], l)
    case Begin(t, _, _) => ThreadOf(s, t).pc.Quiet? && s.writer.None?
    case CopyOne(t) =>
      var pc := ThreadOf(s, t).pc;
      pc.Copying? && |pc.copied| < |ListOf(s.lists, pc.subject)|
    case CopyDone(t) =>
      var pc := ThreadOf(s, t).pc;
      pc.Copying? && |pc.copied| >= |ListOf(s.lists, pc.subject)|
    case Send(t) => AtChannel(s, t) && |Target(s, t).buf| < Target(s, t).cap
    case SendToWaiting(t) => AtChannel(s, t) && Target(s, t).stage.Idle? && Target(s, t).buf == []
    case Abort(t) =>
      var pc := ThreadOf(s, t).pc;
      pc.Sending? && pc.r.sent < |pc.r.snapshot| && ThreadOf(s, t).done
    case Return(t) =>
      var pc := ThreadOf(s, t).pc;
      pc.Sending? && pc.r.sent >= |pc.r.snapshot|
    case CancelCall(t) => t in s.threads
  }

  function Registering(s: State, c: Chan): State
    requires c in s.chans
  {
    var x := s.chans[c];
    if x.stage.Created? then
      s.(chans := s.chans[c := x.(stage := Registered, ticket := s.next)],
         lists := Add(s.lists, x.subject, c), writer := None, next := s.next + 1)
    else
      s.(chans := s.chans[c := x.(stage := Returned)], lists := Remove(s.lists, x.subject, c), writer := None)
  }

  function WithThread(s: State, t: nat, th: Thread): State {
    s.(threads := s.threads[t := th])
  }

  function Window(s: State, subject: string): set<Chan> {
    set c | c in s.chans && s.chans[c].subject == subject && InWindow(s.chans[c])
  }

  /** The current channel accepts the message, into its buffer or into the hand of its receiver. */
  function Accepting(s: State, t: nat, waiting: bool): State
    requires AtChannel(s, t)
  {
    var th := ThreadOf(s, t);
    var r := th.pc.r;
    var x := s.chans[r.snapshot[r.sent]];
    var y := if waiting then x.(stage := Handling(r.e), accepted := x.accepted + [r.e])
             else x.(buf := x.buf + [r.e], accepted := x.accepted + [r.e]);
    WithThread(s.(chans := s.chans[r.snapshot[r.sent] := y]), t, th.(pc := Sending(r.(sent := r.sent + 1))))
  }

  function Ending(th: Thread, ok: bool): Thread
    requires th.pc.Sending?
  {
    th.(past := th.past + [th.pc.r.(ok := Some(ok))], pc := Quiet)
  }

  ghost function Apply(s: State, ev: Event): State
    requires Enabled(s, ev)
  {
    match ev
    case Make(c, subject, cap, bridge) =>
      s.(chans := s.chans[c := Fresh(subject, cap, bridge)])
    case Lock(c) => s.(writer := Some(c))
    case Write(c) => Registering(s, c)
    case AtCell(c, l) => s.(chans := s.chans[c := LocalApply(s.chans[c], l)])
    case Begin(t, subject, payload) =>
      var th := ThreadOf(s, t);
      WithThread(s, t, Thread(th.past, false, Copying(Entry(t, |th.past|, payload), subject, [])))
    case CopyOne(t) =>
      var th := ThreadOf(s, t);
      var next := ListOf(s.lists, th.pc.subject)[|th.pc.copied|];
      WithThread(s, t, th.(pc := th.pc.(copied := th.pc.copied + [next])))
    case CopyDone(t) =>
      var th := ThreadOf(s, t);
      WithThread(s, t, th.(pc := Sending(
        Record(th.pc.e, th.pc.subject, th.pc.copied, 0, Window(s, th.pc.subject), None))))
    case Send(t) => Accepting(s, t, false)
    case SendToWaiting(t) => Accepting(s, t, true)
    case Abort(t) => WithThread(s, t, Ending(ThreadOf(s, t), false))
    case Return(t) => WithThread(s, t, Ending(ThreadOf(s, t), true))
    case CancelCall(t) => WithThread(s, t, ThreadOf(s, t).(done := true))
  }

  ghost predicate Init(s: State) {
    s == State(map[], map[], map[], None, 0)
  }

  ghost predicate Next(s: State, s': State) {
    exists ev :: Enabled(s, ev) && s' == Apply(s, ev)
  }

  ghost predicate IsRun(run: seq<State>) {
    && |run| > 0 && Init(run[0])
    && forall i :: 0 <= i < |run| - 1 ==> Next(run[i], run[i + 1])
  }

  // ---------------------------------------------------------------------------
  // The invariant
  // ---------------------------------------------------------------------------

  /** All calls of a goroutine so far, the k-th at index k; the last one may be in progress. */
  function Calls(th: Thread): seq<Record> {
    if th.pc.Sending? then th.past + [th.pc.r] else th.past
  }

  predicate Distinct(s: seq<Chan>) {
    forall i, j | 0 <= i < j < |s| :: s[i] != s[j]
  }

  /** Lists contain exactly the listed channels, in the order of their registration. */
  ghost predicate TableOk(s: State) {
    && (forall subject, c | c in ListOf(s.lists, subject) ::
         c in s.chans && s.chans[c].subject == subject && Listed(s.chans[c]))
    && (forall c | c in s.chans && Listed(s.chans[c]) ::
         c in ListOf(s.lists, s.chans[c].subject) && s.chans[c].ticket < s.next)
    && (forall subject :: InOrder(s, ListOf(s.lists, subject)))
  }

  ghost predicate InOrder(s: State, list: seq<Chan>) {
    forall i, j | 0 <= i < j < |list| :: Before(s, list[i], list[j])
  }

  /** a was registered before b. */
  predicate Before(s: State, a: Chan, b: Chan) {
    a in s.chans && b in s.chans && s.chans[a].ticket < s.chans[b].ticket
  }

  predicate LockOk(s: State) {
    s.writer.Some? ==>
      && s.writer.value in s.chans
      && (s.chans[s.writer.value].stage.Created? || s.chans[s.writer.value].stage.Leaving?)
  }

  predicate RecordOk(r: Record, t: nat, k: nat) {
    && r.e.thread == t && r.e.call == k
    && r.sent <= |r.snapshot| && Distinct(r.snapshot)
    && (forall c | c in r.seen :: c in r.snapshot)
  }

  ghost predicate ThreadOk(s: State, t: nat) {
    var th := ThreadOf(s, t);
    && (th.pc.Copying? ==>
         th.pc.copied <= ListOf(s.lists, th.pc.subject) && th.pc.e.thread == t && th.pc.e.call == |th.past|)
    && (th.pc.Sending? ==> th.pc.r.ok.None?)
    && (forall k | 0 <= k < |Calls(th)| :: RecordOk(Calls(th)[k], t, k))
    && (forall k | 0 <= k < |th.past| :: th.past[k].ok == Some(th.past[k].sent == |th.past[k].snapshot|))
  }

  /** Every message counted as sent was accepted by the channel. */
  ghost predicate SentOk(s: State, t: nat) {
    forall k, i | 0 <= k < |Calls(ThreadOf(s, t))| && 0 <= i < |Calls(ThreadOf(s, t))[k].snapshot| ::
      var r := Calls(ThreadOf(s, t))[k];
      r.snapshot[i] in s.chans && (i < r.sent ==> r.e in s.chans[r.snapshot[i]].accepted)
  }

  /** The call that an accepted message came from has counted this channel as sent to. */
  ghost predicate SentFrom(s: State, c: Chan, e: Entry) {
    var calls := Calls(ThreadOf(s, e.thread));
    e.call < |calls| && calls[e.call].e == e
    && exists i :: 0 <= i < calls[e.call].sent && i < |calls[e.call].snapshot| && calls[e.call].snapshot[i] == c
  }

  predicate Ascending(log: seq<Entry>) {
    forall i, j | 0 <= i < j < |log| && log[i].thread == log[j].thread :: log[i].call < log[j].call
  }

  ghost predicate LogOk(s: State, c: Chan)
    requires c in s.chans
  {
    && Ascending(s.chans[c].accepted)
    && forall e | e in s.chans[c].accepted :: SentFrom(s, c, e)
  }

  ghost predicate Inv(s: State) {
    && (forall c | c in s.chans :: CellOk(s.chans[c]))
    && TableOk(s) && LockOk(s)
    && (forall t: nat :: ThreadOk(s, t) && SentOk(s, t))
    && (forall c | c in s.chans :: LogOk(s, c))
  }

  // ---------------------------------------------------------------------------
  // Every step keeps the invariant
  // ---------------------------------------------------------------------------

  /** Calls are only added, and their sends only counted up. */
  ghost predicate CallsGrow(a: seq<Record>, b: seq<Record>) {
    && |a| <= |b|
    && forall k | 0 <= k < |a| :: a[k].e == b[k].e && a[k].snapshot == b[k].snapshot && a[k].sent <= b[k].sent
  }

  /** Channels are only added, and keep what they accepted. */
  ghost predicate ChansGrow(s: State, s': State) {
    forall c | c in s.chans :: c in s'.chans && forall e | e in s.chans[c].accepted :: e in s'.chans[c].accepted
  }

  lemma SentOkGrows(s: State, s': State, t: nat)
    requires SentOk(s, t) && ChansGrow(s, s') && ThreadOf(s', t) == ThreadOf(s, t)
    ensures SentOk(s', t)
  {
    var calls := Calls(ThreadOf(s, t));
    assert Calls(ThreadOf(s', t)) == calls;
    forall k, i | 0 <= k < |calls| && 0 <= i < |calls[k].snapshot|
      ensures calls[k].snapshot[i] in s'.chans
      ensures i < calls[k].sent ==> calls[k].e in s'.chans[calls[k].snapshot[i]].accepted
    {
      assert calls[k].snapshot[i] in s.chans;
    }
  }

  lemma LogOkGrows(s: State, s': State, c: Chan)
    requires c in s.chans && c in s'.chans && LogOk(s, c) && s'.chans[c].accepted == s.chans[c].accepted
    requires forall t: nat :: CallsGrow(Calls(ThreadOf(s, t)), Calls(ThreadOf(s', t)))
    ensures LogOk(s', c)
  {
    forall e | e in s'.chans[c].accepted ensures SentFrom(s', c, e) {
    }
  }

  /** One goroutine moves and nothing else changes. */
  lemma ThreadStep(s: State, t: nat, th: Thread)
    requires Inv(s)
    requires CallsGrow(Calls(ThreadOf(s, t)), Calls(th))
    requires ThreadOk(WithThread(s, t, th), t) && SentOk(WithThread(s, t, th), t)
    ensures Inv(WithThread(s, t, th))
  {
    var s' := WithThread(s, t, th);
    forall u: nat ensures ThreadOk(s', u) && SentOk(s', u) {
      if u != t {
        assert ThreadOf(s', u) == ThreadOf(s, u);
        assert ThreadOk(s, u) && SentOk(s, u);
        SentOkGrows(s, s', u);
      }
    }
    forall u: nat ensures CallsGrow(Calls(ThreadOf(s, u)), Calls(ThreadOf(s', u))) {
      if u != t {
        assert ThreadOf(s', u) == ThreadOf(s, u);
      }
    }
    forall c | c in s'.chans ensures LogOk(s', c) {
      LogOkGrows(s, s', c);
    }
    TableFrame(s, s');
  }

  lemma TableFrame(s: State, s': State)
    requires TableOk(s) && s'.lists == s.lists && s'.next == s.next
    requires forall c | c in s.chans :: c in s'.chans && s'.chans[c].subject == s.chans[c].subject
               && s'.chans[c].ticket == s.chans[c].ticket && (Listed(s'.chans[c]) <==> Listed(s.chans[c]))
    requires forall c | c in s'.chans && c !in s.chans :: !Listed(s'.chans[c])
    ensures TableOk(s')
  {
    forall subject ensures InOrder(s', ListOf(s'.lists, subject)) {
      InOrderFrame(s, s', ListOf(s.lists, subject));
    }
  }

  lemma BeginStep(s: State, t: nat, subject: string, payload: Payload)
    requires Inv(s) && Enabled(s, Begin(t, subject, payload))
    ensures Inv(Apply(s, Begin(t, subject, payload)))
  {
    var th := ThreadOf(s, t);
    var th' := Thread(th.past, false, Copying(Entry(t, |th.past|, payload), subject, []));
    var s' := WithThread(s, t, th');
    assert ThreadOk(s, t) && SentOk(s, t);
    assert Calls(th') == Calls(th);
    assert ThreadOf(s', t) == th';
    ThreadStep(s, t, th');
  }

  lemma CopyOneStep(s: State, t: nat)
    requires Inv(s) && Enabled(s, CopyOne(t))
    ensures Inv(Apply(s, CopyOne(t)))
  {
    var th := ThreadOf(s, t);
    var list := ListOf(s.lists, th.pc.subject);
    var th' := th.(pc := th.pc.(copied := th.pc.copied + [list[|th.pc.copied|]]));
    var s' := WithThread(s, t, th');
    assert ThreadOk(s, t) && SentOk(s, t);
    assert th'.pc.copied <= list;
    assert Calls(th') == Calls(th);
    ThreadStep(s, t, th');
  }

  lemma CopyDoneStep(s: State, t: nat)
    requires Inv(s) && Enabled(s, CopyDone(t))
    ensures Inv(Apply(s, CopyDone(t)))
    ensures ThreadOf(s, t).pc.copied == ListOf(s.lists, ThreadOf(s, t).pc.subject)
  {
    var th := ThreadOf(s, t);
    var list := ListOf(s.lists, th.pc.subject);
    assert ThreadOk(s, t) && SentOk(s, t);
    assert th.pc.copied == list;
    var r := Record(th.pc.e, th.pc.subject, list, 0, Window(s, th.pc.subject), None);
    var th' := th.(pc := Sending(r));
    var s' := WithThread(s, t, th');
    assert Calls(th) == th.past && Calls(th') == th.past + [r];
    assert InOrder(s, list);
    assert RecordOk(r, t, |th.past|);
    assert ThreadOf(s', t) == th';
    forall k | 0 <= k < |Calls(th')| ensures RecordOk(Calls(th')[k], t, k) {
      assert k < |th.past| ==> Calls(th')[k] == Calls(th)[k];
    }
    forall k, i | 0 <= k < |Calls(th')| && 0 <= i < |Calls(th')[k].snapshot|
      ensures Calls(th')[k].snapshot[i] in s'.chans
      ensures i < Calls(th')[k].sent ==> Calls(th')[k].e in s'.chans[Calls(th')[k].snapshot[i]].accepted
    {
      if k < |th.past| {
        assert Calls(th')[k] == Calls(th)[k];
      } else {
        assert list[i] in ListOf(s.lists, th.pc.subject);
      }
    }
    ThreadStep(s, t, th');
  }

  lemma EndStep(s: State, t: nat, ok: bool)
    requires Inv(s) && ThreadOf(s, t).pc.Sending?
    requires ok == (ThreadOf(s, t).pc.r.sent >= |ThreadOf(s, t).pc.r.snapshot|)
    ensures Inv(WithThread(s, t, Ending(ThreadOf(s, t), ok)))
  {
    var th := ThreadOf(s, t);
    var th' := Ending(th, ok);
    var s' := WithThread(s, t, th');
    assert ThreadOk(s, t) && SentOk(s, t);
    var a, b := Calls(th), Calls(th');
    assert |a| == |b|;
    forall k | 0 <= k < |b|
      ensures b[k].e == a[k].e && b[k].snapshot == a[k].snapshot && b[k].sent == a[k].sent && b[k].seen == a[k].seen
      ensures RecordOk(b[k], t, k)
    {
      assert RecordOk(a[k], t, k);
    }
    assert ThreadOf(s', t) == th';
    forall k, i | 0 <= k < |b| && 0 <= i < |b[k].snapshot|
      ensures b[k].snapshot[i] in s'.chans
      ensures i < b[k].sent ==> b[k].e in s'.chans[b[k].snapshot[i]].accepted
    {
      assert a[k].snapshot[i] in s.chans;
    }
    assert RecordOk(a[|th.past|], t, |th.past|);
    ThreadStep(s, t, th');
  }

  lemma CancelStep(s: State, t: nat)
    requires Inv(s) && Enabled(s, CancelCall(t))
    ensures Inv(Apply(s, CancelCall(t)))
  {
    var th' := ThreadOf(s, t).(done := true);
    assert ThreadOk(s, t) && SentOk(s, t);
    assert Calls(th') == Calls(ThreadOf(s, t));
    ThreadStep(s, t, th');
  }

  /** Steps of subscriptions leave the goroutines alone. */
  lemma SameThreads(s: State, s': State)
    requires Inv(s) && s'.threads == s.threads && ChansGrow(s, s')
    requires s'.lists == s.lists || (forall t: nat :: !Reading(s, t))
    ensures forall t: nat :: ThreadOk(s', t) && SentOk(s', t)
    ensures forall t: nat :: CallsGrow(Calls(ThreadOf(s, t)), Calls(ThreadOf(s', t)))
  {
    forall t: nat ensures ThreadOk(s', t) && SentOk(s', t) {
      assert ThreadOf(s', t) == ThreadOf(s, t);
      assert ThreadOk(s, t) && SentOk(s, t);
      assert Reading(s, t) ==> t in s.threads;
      SentOkGrows(s, s', t);
    }
  }

  lemma AddKeepsTable(s: State, c: Chan)
    requires TableOk(s) && c in s.chans && s.chans[c].stage.Created?
    ensures TableOk(Registering(s, c))
  {
    var s', x := Registering(s, c), s.chans[c];
    assert c !in ListOf(s.lists, x.subject);
    forall subject
      ensures InOrder(s', ListOf(s'.lists, subject))
      ensures forall d | d in ListOf(s'.lists, subject) ::
                d in s'.chans && s'.chans[d].subject == subject && Listed(s'.chans[d])
    {
      var list, list' := ListOf(s.lists, subject), ListOf(s'.lists, subject);
      assert InOrder(s, list);
      assert list' == if subject == x.subject then list + [c] else list;
      forall i, j | 0 <= i < j < |list'| ensures Before(s', list'[i], list'[j]) {
        assert list'[i] == list[i] && list[i] in ListOf(s.lists, subject);
        if j < |list| {
          assert Before(s, list[i], list[j]) && list[j] in ListOf(s.lists, subject);
        }
      }
    }
    forall d | d in s'.chans && Listed(s'.chans[d])
      ensures d in ListOf(s'.lists, s'.chans[d].subject) && s'.chans[d].ticket < s'.next
    {
      if d == c {
        assert ListOf(s'.lists, x.subject)[|ListOf(s.lists, x.subject)|] == c;
      } else {
        assert d in ListOf(s.lists, s.chans[d].subject);
      }
    }
  }

  lemma RemoveMembers(list: seq<Chan>, c: Chan, i: nat)
    requires Distinct(list) && i < |list| && list[i] == c
    ensures RemoveFirst(list, c) == Without(list, i)
    ensures forall d :: d in RemoveFirst(list, c) <==> d in list && d != c
  {
    assert c !in list[..i];
    RemoveFirstAt(list, c, i);
    var shorter := Without(list, i);
    forall d ensures d in shorter <==> d in list && d != c {
      if d in list && d != c {
        var k :| 0 <= k < |list| && list[k] == d;
        assert shorter[if k < i then k else k - 1] == d;
      }
      if d in shorter {
        var k :| 0 <= k < |shorter| && shorter[k] == d;
        assert list[if k < i then k else k + 1] == d;
      }
    }
  }

  lemma WithoutInOrder(s: State, list: seq<Chan>, i: nat)
    requires InOrder(s, list) && i < |list|
    ensures InOrder(s, Without(list, i))
  {
    var shorter := Without(list, i);
    forall a, b | 0 <= a < b < |shorter| ensures Before(s, shorter[a], shorter[b]) {
      var a', b' := if a < i then a else a + 1, if b < i then b else b + 1;
      assert shorter[a] == list[a'] && shorter[b] == list[b'];
      assert Before(s, list[a'], list[b']);
    }
  }

  /** In a list in order of registration, removing a channel leaves the others in order. */
  lemma RemoveKeepsOrder(s: State, list: seq<Chan>, c: Chan)
    requires InOrder(s, list) && c in list
    ensures InOrder(s, RemoveFirst(list, c))
    ensures forall d :: d in RemoveFirst(list, c) <==> d in list && d != c
  {
    var i :| 0 <= i < |list| && list[i] == c;
    RemoveMembers(list, c, i);
    WithoutInOrder(s, list, i);
  }

  /** Every list after c has left: the same channels without c, still in order. */
  lemma RemovedList(s: State, c: Chan, subject: string)
    requires TableOk(s) && c in s.chans && Listed(s.chans[c])
    ensures var list' := ListOf(Remove(s.lists, s.chans[c].subject, c), subject);
            InOrder(s, list') && forall d :: d in list' <==> d in ListOf(s.lists, subject) && d != c
  {
    assert InOrder(s, ListOf(s.lists, subject));
    RemoveAnywhere(s.lists, s.chans[c].subject, c, subject);
    if subject == s.chans[c].subject {
      RemoveKeepsOrder(s, ListOf(s.lists, subject), c);
    }
  }

  lemma InOrderFrame(s: State, s': State, list: seq<Chan>)
    requires InOrder(s, list)
    requires forall c | c in s.chans :: c in s'.chans && s'.chans[c].ticket == s.chans[c].ticket
    ensures InOrder(s', list)
  {
    forall i, j | 0 <= i < j < |list| ensures Before(s', list[i], list[j]) {
      assert Before(s, list[i], list[j]);
    }
  }

  lemma RemoveKeepsTable(s: State, c: Chan, y: Cell, s': State)
    requires TableOk(s) && c in s.chans && Listed(s.chans[c]) && !Listed(y)
    requires y.subject == s.chans[c].subject && y.ticket == s.chans[c].ticket && s'.next == s.next
    requires s'.chans == s.chans[c := y] && s'.lists == Remove(s.lists, y.subject, c)
    ensures TableOk(s')
  {
    forall subject
      ensures InOrder(s', ListOf(s'.lists, subject))
      ensures forall d | d in ListOf(s'.lists, subject) ::
                d in s'.chans && s'.chans[d].subject == subject && Listed(s'.chans[d])
    {
      RemovedList(s, c, subject);
      InOrderFrame(s, s', ListOf(s'.lists, subject));
    }
    forall d | d in s'.chans && Listed(s'.chans[d])
      ensures d in ListOf(s'.lists, s'.chans[d].subject) && s'.chans[d].ticket < s'.next
    {
      RemovedList(s, c, s.chans[d].subject);
    }
  }

  /** What is left to show for a step that changes channels or lists but no goroutine. */
  lemma ChansStep(s: State, s': State)
    requires Inv(s) && s'.threads == s.threads && ChansGrow(s, s')
    requires s'.lists == s.lists || (forall t: nat :: !Reading(s, t))
    requires forall c | c in s.chans :: s'.chans[c].accepted == s.chans[c].accepted
    requires forall c | c in s'.chans && c !in s.chans :: s'.chans[c].accepted == []
    requires forall c | c in s'.chans :: CellOk(s'.chans[c])
    requires TableOk(s') && LockOk(s')
    ensures Inv(s')
  {
    SameThreads(s, s');
    forall d | d in s'.chans ensures LogOk(s', d) {
      if d in s.chans {
        LogOkGrows(s, s', d);
      }
    }
  }

  /** The same when a single channel changes. */
  lemma OneChanStep(s: State, c: Chan, s': State)
    requires Inv(s) && s'.threads == s.threads && s'.chans.Keys == s.chans.Keys && c in s.chans
    requires s'.lists == s.lists || (forall t: nat :: !Reading(s, t))
    requires forall d | d in s.chans && d != c :: s'.chans[d] == s.chans[d]
    requires s'.chans[c].accepted == s.chans[c].accepted && (CellOk(s.chans[c]) ==> CellOk(s'.chans[c]))
    requires TableOk(s') && LockOk(s')
    ensures Inv(s')
  {
    ChansStep(s, s');
  }

  lemma MadeChans(s: State, c: Chan, x: Cell, s': State)
    requires TableOk(s) && LockOk(s) && c !in s.chans && x.stage.Created?
    requires s' == s.(chans := s.chans[c := x])
    ensures ChansGrow(s, s') && TableOk(s') && LockOk(s')
    ensures s'.chans.Keys == s.chans.Keys + {c} && forall d | d in s.chans :: s'.chans[d] == s.chans[d]
  {
    TableFrame(s, s');
  }

  lemma MakeStep(s: State, c: Chan, x: Cell, s': State)
    requires Inv(s) && c !in s.chans && s' == s.(chans := s.chans[c := x])
    requires CellOk(x) && x.stage.Created? && x.accepted == []
    ensures Inv(s')
  {
    MadeChans(s, c, x, s');
    ChansStep(s, s');
  }

  lemma LockStep(s: State, c: Chan)
    requires Inv(s) && Enabled(s, Lock(c))
    ensures Inv(Apply(s, Lock(c)))
  {
    var s' := Apply(s, Lock(c));
    TableFrame(s, s');
    ChansStep(s, s');
  }

  lemma LocalStep(s: State, c: Chan, l: Local, y: Cell, s': State)
    requires Inv(s) && c in s.chans && LocalEnabled(s.chans[c], l) && y == LocalApply(s.chans[c], l)
    requires s' == s.(chans := s.chans[c := y])
    ensures Inv(s')
  {
    LocalKeepsCell(s.chans[c], l);
    LocalChans(s, c, y, s');
    OneChanStep(s, c, s');
  }

  /** Replacing a channel by one that the bus cannot tell from it. */
  lemma LocalChans(s: State, c: Chan, y: Cell, s': State)
    requires TableOk(s) && LockOk(s) && c in s.chans && s' == s.(chans := s.chans[c := y])
    requires var x := s.chans[c];
             && y.accepted == x.accepted && y.subject == x.subject && y.ticket == x.ticket
             && (Listed(y) <==> Listed(x)) && (x.stage.Created? || x.stage.Leaving? ==> y.stage == x.stage)
    ensures ChansGrow(s, s') && TableOk(s') && LockOk(s') && s'.chans.Keys == s.chans.Keys
    ensures forall d | d in s.chans && d != c :: s'.chans[d] == s.chans[d]
  {
    TableFrame(s, s');
  }

  lemma WrittenChans(s: State, c: Chan)
    requires c in s.chans && (s.chans[c].stage.Created? || s.chans[c].stage.Leaving?)
    ensures var s' := Registering(s, c);
            && (CellOk(s.chans[c]) ==> CellOk(s'.chans[c]))
            && s'.chans[c].accepted == s.chans[c].accepted
            && (forall d | d in s.chans && d != c :: s'.chans[d] == s.chans[d])
            && s'.chans.Keys == s.chans.Keys && LockOk(s') && s'.threads == s.threads
  {
  }

  lemma WriteKeepsTable(s: State, c: Chan)
    requires TableOk(s) && c in s.chans && (s.chans[c].stage.Created? || s.chans[c].stage.Leaving?)
    ensures TableOk(Registering(s, c))
  {
    if s.chans[c].stage.Created? {
      AddKeepsTable(s, c);
    } else {
      RemoveKeepsTable(s, c, s.chans[c].(stage := Returned), Registering(s, c));
    }
  }

  lemma WriteStep(s: State, c: Chan, s': State)
    requires Inv(s) && Enabled(s, Write(c)) && s' == Registering(s, c)
    ensures Inv(s')
  {
    WriteKeepsTable(s, c);
    WrittenChans(s, c);
    OneChanStep(s, c, s');
  }

  /** The call in progress is the goroutine's last one. */
  lemma CurrentCall(s: State, t: nat)
    requires ThreadOk(s, t) && ThreadOf(s, t).pc.Sending?
    ensures var th := ThreadOf(s, t);
            Calls(th)[|th.past|] == th.pc.r && RecordOk(th.pc.r, t, |th.past|) && th.pc.r.ok.None?
  {
    var th := ThreadOf(s, t);
    assert RecordOk(Calls(th)[|th.past|], t, |th.past|);
  }

  /** The message of the call in progress has not been accepted yet by the channel it is at. */
  lemma NotYetAccepted(s: State, t: nat, e: Entry)
    requires AtChannel(s, t) && ThreadOk(s, t)
    requires e.thread == t && SentFrom(s, ThreadOf(s, t).pc.r.snapshot[ThreadOf(s, t).pc.r.sent], e)
    ensures e.call < ThreadOf(s, t).pc.r.e.call
  {
    CurrentCall(s, t);
  }

  lemma AcceptingCell(s: State, t: nat, waiting: bool)
    requires AtChannel(s, t) && Enabled(s, if waiting then SendToWaiting(t) else Send(t))
    requires CellOk(Target(s, t))
    ensures CellOk(Accepting(s, t, waiting).chans[ThreadOf(s, t).pc.r.snapshot[ThreadOf(s, t).pc.r.sent]])
  {
    var e, x := ThreadOf(s, t).pc.r.e, Target(s, t);
    if waiting {
      assert x.accepted == Entries(x.handled);
      assert x.accepted + [e] == Entries(x.handled) + [e] + [];
    } else {
      assert Entries(x.handled) + InHand(x) + (x.buf + [e]) == x.accepted + [e];
    }
  }

  lemma AcceptingLog(s: State, t: nat)
    requires AtChannel(s, t) && ThreadOk(s, t)
    requires LogOk(s, ThreadOf(s, t).pc.r.snapshot[ThreadOf(s, t).pc.r.sent])
    ensures Ascending(Target(s, t).accepted + [ThreadOf(s, t).pc.r.e])
  {
    var r, x := ThreadOf(s, t).pc.r, Target(s, t);
    CurrentCall(s, t);
    var log := x.accepted + [r.e];
    forall i, j | 0 <= i < j < |log| && log[i].thread == log[j].thread ensures log[i].call < log[j].call {
      assert log[i] == x.accepted[i];
      if j == |x.accepted| {
        NotYetAccepted(s, t, log[i]);
      }
    }
  }

  lemma AcceptedThread(s: State, t: nat, waiting: bool)
    requires AtChannel(s, t) && ThreadOk(s, t)
    ensures ThreadOk(Accepting(s, t, waiting), t)
    ensures CallsGrow(Calls(ThreadOf(s, t)), Calls(ThreadOf(Accepting(s, t, waiting), t)))
  {
    var th, th' := ThreadOf(s, t), ThreadOf(Accepting(s, t, waiting), t);
    var a, b := Calls(th), Calls(th');
    CurrentCall(s, t);
    assert b == a[|th.past| := th'.pc.r];
    forall k | 0 <= k < |b|
      ensures RecordOk(b[k], t, k) && a[k].e == b[k].e && a[k].snapshot == b[k].snapshot && a[k].sent <= b[k].sent
    {
      assert RecordOk(a[k], t, k);
    }
  }

  lemma AcceptedSent(s: State, t: nat, waiting: bool)
    requires AtChannel(s, t) && SentOk(s, t)
    ensures SentOk(Accepting(s, t, waiting), t)
  {
    var s' := Accepting(s, t, waiting);
    var th, th' := ThreadOf(s, t), ThreadOf(s', t);
    var a, b := Calls(th), Calls(th');
    assert b == a[|th.past| := th'.pc.r];
    forall k, i | 0 <= k < |b| && 0 <= i < |b[k].snapshot|
      ensures b[k].snapshot[i] in s'.chans
      ensures i < b[k].sent ==> b[k].e in s'.chans[b[k].snapshot[i]].accepted
    {
      assert a[k].snapshot[i] in s.chans;
      if k == |th.past| && i == th.pc.r.sent {
        var log := Target(s, t).accepted + [th.pc.r.e];
        assert log[|log| - 1] == th.pc.r.e;
      }
    }
  }

  lemma AcceptedLog(s: State, t: nat, waiting: bool)
    requires AtChannel(s, t) && ThreadOk(s, t)
    requires LogOk(s, ThreadOf(s, t).pc.r.snapshot[ThreadOf(s, t).pc.r.sent])
    requires forall u: nat :: CallsGrow(Calls(ThreadOf(s, u)), Calls(ThreadOf(Accepting(s, t, waiting), u)))
    ensures LogOk(Accepting(s, t, waiting), ThreadOf(s, t).pc.r.snapshot[ThreadOf(s, t).pc.r.sent])
  {
    var th, s' := ThreadOf(s, t), Accepting(s, t, waiting);
    var r := th.pc.r;
    var c := r.snapshot[r.sent];
    AcceptingLog(s, t);
    CurrentCall(s, t);
    forall e | e in s'.chans[c].accepted ensures SentFrom(s', c, e) {
      if e == r.e {
        assert Calls(ThreadOf(s', t))[|th.past|] == r.(sent := r.sent + 1);
      } else {
        assert e in s.chans[c].accepted;
      }
    }
  }

  /** What a step that lets a channel accept a message leaves alone. */
  lemma AcceptedFrame(s: State, t: nat, waiting: bool)
    requires AtChannel(s, t) && (waiting ==> Target(s, t).stage.Idle?)
    ensures var s', c := Accepting(s, t, waiting), ThreadOf(s, t).pc.r.snapshot[ThreadOf(s, t).pc.r.sent];
            && ChansGrow(s, s') && s'.chans.Keys == s.chans.Keys
            && (forall d | d in s.chans && d != c :: s'.chans[d] == s.chans[d])
            && (forall u: nat | u != t :: ThreadOf(s', u) == ThreadOf(s, u))
            && (TableOk(s) ==> TableOk(s'))
            && (LockOk(s) ==> LockOk(s'))
  {
    var s' := Accepting(s, t, waiting);
    if TableOk(s) {
      TableFrame(s, s');
    }
  }

  lemma AcceptedThreads(s: State, t: nat, waiting: bool)
    requires AtChannel(s, t) && (waiting ==> Target(s, t).stage.Idle?)
    requires forall u: nat :: ThreadOk(s, u) && SentOk(s, u)
    ensures forall u: nat :: ThreadOk(Accepting(s, t, waiting), u) && SentOk(Accepting(s, t, waiting), u)
  {
    forall u: nat ensures ThreadOk(Accepting(s, t, waiting), u) && SentOk(Accepting(s, t, waiting), u) {
      assert ThreadOk(s, u) && SentOk(s, u);
      if u == t {
        AcceptedThread(s, t, waiting);
        AcceptedSent(s, t, waiting);
      } else {
      }
    }
  }

  lemma AcceptedCells(s: State, t: nat, waiting: bool)
    requires AtChannel(s, t) && Enabled(s, if waiting then SendToWaiting(t) else Send(t))
    requires forall c | c in s.chans :: CellOk(s.chans[c])
    ensures var chans := Accepting(s, t, waiting).chans;
            chans.Keys == s.chans.Keys && forall c | c in chans :: CellOk(chans[c])
  {
    AcceptingCell(s, t, waiting);
  }

  lemma AcceptStep(s: State, t: nat, waiting: bool, s': State)
    requires Inv(s) && Enabled(s, if waiting then SendToWaiting(t) else Send(t))
    requires s' == Accepting(s, t, waiting)
    ensures Inv(s')
  {
    assert TableOk(s') && LockOk(s') by {
      AcceptedFrame(s, t, waiting);
    }
    assert forall u: nat :: ThreadOk(s', u) && SentOk(s', u) by {
      AcceptedThreads(s, t, waiting);
    }
    assert s'.chans.Keys == s.chans.Keys && forall c | c in s'.chans :: CellOk(s'.chans[c]) by {
      AcceptedCells(s, t, waiting);
    }
    assert forall c | c in s.chans :: LogOk(s', c) by {
      assert ThreadOk(s, t);
      AcceptedLogs(s, t, waiting);
    }
  }

  lemma AcceptedLogs(s: State, t: nat, waiting: bool)
    requires AtChannel(s, t) && ThreadOk(s, t) && (waiting ==> Target(s, t).stage.Idle?)
    requires forall d | d in s.chans :: LogOk(s, d)
    ensures forall d | d in s.chans :: LogOk(Accepting(s, t, waiting), d)
  {
    var s', c := Accepting(s, t, waiting), ThreadOf(s, t).pc.r.snapshot[ThreadOf(s, t).pc.r.sent];
    AcceptedFrame(s, t, waiting);
    AcceptedThread(s, t, waiting);
    assert LogOk(s, c);
    AcceptedLog(s, t, waiting);
    forall d | d in s.chans ensures LogOk(s', d) {
      if d != c {
        LogOkGrows(s, s', d);
      }
    }
  }

  lemma InvStep(s: State, ev: Event)
    requires Inv(s) && Enabled(s, ev)
    ensures Inv(Apply(s, ev))
  {
    match ev
    case Make(c, subject, cap, bridge) => MakeStep(s, c, Fresh(subject, cap, bridge), Apply(s, ev));
    case Lock(c) => LockStep(s, c);
    case Write(c) => WriteStep(s, c, Apply(s, ev));
    case AtCell(c, l) => LocalStep(s, c, l, LocalApply(s.chans[c], l), Apply(s, ev));
    case Begin(t, subject, payload) => BeginStep(s, t, subject, payload);
    case CopyOne(t) => CopyOneStep(s, t);
    case CopyDone(t) => CopyDoneStep(s, t);
    case Send(t) => AcceptStep(s, t, false, Apply(s, ev));
    case SendToWaiting(t) => AcceptStep(s, t, true, Apply(s, ev));
    case Abort(t) => EndStep(s, t, false);
    case Return(t) => EndStep(s, t, true);
    case CancelCall(t) => CancelStep(s, t);
  }

  lemma LastEvent(run: seq<State>) returns (before: seq<State>, ev: Event)
    requires IsRun(run) && |run| > 1
    ensures before == run[..|run| - 1] && IsRun(before)
    ensures Enabled(before[|before| - 1], ev) && run[|run| - 1] == Apply(before[|before| - 1], ev)
  {
    before := run[..|run| - 1];
    forall i | 0 <= i < |before| - 1 ensures Next(before[i], before[i + 1]) {
      assert Next(run[i], run[i + 1]);
    }
    assert Next(run[|run| - 2], run[|run| - 2 + 1]);
    ev :| Enabled(run[|run| - 2], ev) && run[|run| - 1] == Apply(run[|run| - 2], ev);
  }

  lemma {:induction false} InvRun(run: seq<State>)
    requires IsRun(run)
    ensures Inv(run[|run| - 1])
    decreases |run|
  {
    if |run| == 1 {
    } else {
      var before, ev := LastEvent(run);
      InvRun(before);
      InvStep(before[|before| - 1], ev);
    }
  }
}