/** What holds in every run of the channel bus. */
module BrokerLaws {
  import opened Core
  import opened Subscriptions
  import opened Broker

  lemma CellFact(run: seq<State>, c: Chan)
    requires IsRun(run) && c in run[|run| - 1].chans
    ensures CellOk(run[|run| - 1].chans[c]) && LogOk(run[|run| - 1], c)
  {
    InvRun(run);
  }

  lemma ThreadFact(run: seq<State>, t: nat)
    requires IsRun(run)
    ensures ThreadOk(run[|run| - 1], t) && SentOk(run[|run| - 1], t)
  {
    InvRun(run);
  }

  lemma Extend(run: seq<State>, ev: Event) returns (longer: seq<State>)
    requires IsRun(run) && Enabled(run[|run| - 1], ev)
    ensures IsRun(longer) && run <= longer && |longer| == |run| + 1
    ensures longer[|longer| - 1] == Apply(run[|run| - 1], ev)
  {
    longer := run + [Apply(run[|run| - 1], ev)];
    forall i | 0 <= i < |longer| - 1 ensures Next(longer[i], longer[i + 1]) {
      if i < |run| - 1 {
        assert Next(run[i], run[i + 1]);
      }
    }
  }

  // ---------------------------------------------------------------------------
  // Conservation and order
  // ---------------------------------------------------------------------------

  /** Nothing accepted is lost, duplicated or reordered, and the buffer keeps its bound. */
  lemma Conservation(run: seq<State>, c: Chan)
    requires IsRun(run) && c in run[|run| - 1].chans
    ensures var x := run[|run| - 1].chans[c];
            && x.accepted == Entries(x.handled) + InHand(x) + x.buf
            && |InHand(x)| <= 1 && |x.buf| <= x.cap
            && Entries(x.handled) <= x.accepted
  {
    CellFact(run, c);
  }

  /** The messages of one goroutine reach each channel, and its handler, in the order of the calls. */
  lemma SendersKeepOrder(run: seq<State>, c: Chan, i: nat, j: nat)
    requires IsRun(run) && c in run[|run| - 1].chans
    requires var log := run[|run| - 1].chans[c].accepted;
             i < |log| && j < |log| && log[i].thread == log[j].thread && log[i].call < log[j].call
    ensures i < j
  {
    CellFact(run, c);
  }

  // ---------------------------------------------------------------------------
  // The lists
  // ---------------------------------------------------------------------------

  lemma {:induction false} CountDistinct(s: seq<Chan>, c: Chan)
    requires Distinct(s)
    ensures multiset(s)[c] == if c in s then 1 else 0
  {
    if s == [] {
    } else {
      var rest := s[..|s| - 1];
      assert s == rest + [s[|s| - 1]];
      CountDistinct(rest, c);
      forall i | 0 <= i < |rest| ensures rest[i] != s[|s| - 1] {
        assert s[i] != s[|s| - 1];
      }
    }
  }

  /**
   * A subject's list holds exactly the channels registered for it and not deregistered, each once,
   * oldest registration first. From ready() until deregistration this includes the subscription.
   */
  lemma ListsAreLive(run: seq<State>, subject: string, c: Chan)
    requires IsRun(run)
    ensures var s := run[|run| - 1];
            && multiset(ListOf(s.lists, subject))[c]
               == (if c in s.chans && s.chans[c].subject == subject && Listed(s.chans[c]) then 1 else 0)
            && InOrder(s, ListOf(s.lists, subject))
            && (c in s.chans && InWindow(s.chans[c]) ==>
                 s.chans[c].readies == 1 && multiset(ListOf(s.lists, s.chans[c].subject))[c] == 1)
  {
    InvRun(run);
    var s := run[|run| - 1];
    assert InOrder(s, ListOf(s.lists, subject));
    CountDistinct(ListOf(s.lists, subject), c);
    if c in s.chans {
      assert CellOk(s.chans[c]);
      assert InOrder(s, ListOf(s.lists, s.chans[c].subject));
      CountDistinct(ListOf(s.lists, s.chans[c].subject), c);
    }
  }

  // ---------------------------------------------------------------------------
  // Publishing
  // ---------------------------------------------------------------------------

  lemma CountAscending(log: seq<Entry>, e: Entry)
    requires Ascending(log)
    ensures multiset(log)[e] == if e in log then 1 else 0
  {
    if e in log {
      var i :| 0 <= i < |log| && log[i] == e;
      assert log == log[..i] + [e] + log[i + 1..];
      forall j | 0 <= j < |log| && j != i ensures log[j] != e {
        if j < i {
          assert log[j].thread == log[i].thread ==> log[j].call < log[i].call;
        } else {
          assert log[i].thread == log[j].thread ==> log[i].call < log[j].call;
        }
      }
      assert e !in log[..i] && e !in log[i + 1..];
    }
  }

  /** How often a channel accepted a message. */
  function Accepted(s: State, c: Chan, e: Entry): nat {
    if c in s.chans then multiset(s.chans[c].accepted)[e] else 0
  }

  /** A channel counted as sent to has accepted the message. */
  lemma SentIsAccepted(s: State, t: nat, k: nat, r: Record, c: Chan)
    requires SentOk(s, t) && k < |Calls(ThreadOf(s, t))| && Calls(ThreadOf(s, t))[k] == r
    requires r.sent <= |r.snapshot| && c in r.snapshot[..r.sent]
    ensures c in s.chans && r.e in s.chans[c].accepted
  {
    var i :| 0 <= i < r.sent && r.snapshot[i] == c;
    assert r.snapshot[i] in s.chans;
  }

  /** A channel that has accepted the message is counted as sent to. */
  lemma AcceptedIsSent(s: State, t: nat, k: nat, r: Record, c: Chan)
    requires k < |Calls(ThreadOf(s, t))| && Calls(ThreadOf(s, t))[k] == r && RecordOk(r, t, k)
    requires c in s.chans && LogOk(s, c) && r.e in s.chans[c].accepted
    ensures c in r.snapshot[..r.sent]
  {
    assert SentFrom(s, c, r.e);
    var i :| 0 <= i < r.sent && i < |r.snapshot| && r.snapshot[i] == c;
    assert r.snapshot[..r.sent][i] == c;
  }

  lemma AcceptedExactly(s: State, t: nat, k: nat, r: Record, c: Chan)
    requires Inv(s) && k < |Calls(ThreadOf(s, t))| && Calls(ThreadOf(s, t))[k] == r
    ensures r.sent <= |r.snapshot| && Accepted(s, c, r.e) == if c in r.snapshot[..r.sent] then 1 else 0
  {
    assert ThreadOk(s, t) && SentOk(s, t);
    assert RecordOk(r, t, k);
    if c in r.snapshot[..r.sent] {
      SentIsAccepted(s, t, k, r, c);
    }
    if c in s.chans {
      assert LogOk(s, c);
      CountAscending(s.chans[c].accepted, r.e);
      if r.e in s.chans[c].accepted {
        AcceptedIsSent(s, t, k, r, c);
      }
    }
  }

  /**
   * A finished publish call reached exactly the channels in a prefix of its snapshot, each once:
   * the whole snapshot if it returned nil, a proper prefix if it returned the context's error.
   */
  lemma PublishOutcome(run: seq<State>, t: nat, k: nat, c: Chan)
    requires IsRun(run) && k < |ThreadOf(run[|run| - 1], t).past|
    ensures var s := run[|run| - 1];
            var r := ThreadOf(s, t).past[k];
            && r.sent <= |r.snapshot|
            && r.ok == Some(r.sent == |r.snapshot|)
            && Accepted(s, c, r.e) == (if c in r.snapshot[..r.sent] then 1 else 0)
            && (r.ok == Some(true) ==> Accepted(s, c, r.e) == if c in r.snapshot then 1 else 0)
  {
    InvRun(run);
    var s := run[|run| - 1];
    assert ThreadOk(s, t);
    assert Calls(ThreadOf(s, t))[k] == ThreadOf(s, t).past[k];
    var r := ThreadOf(s, t).past[k];
    AcceptedExactly(s, t, k, r, c);
    assert r.snapshot[..|r.snapshot|] == r.snapshot;
  }

  /** The snapshot is the list as it was when copying ended, although it is copied step by step. */
  lemma SnapshotIsList(run: seq<State>, t: nat)
    requires IsRun(run) && Enabled(run[|run| - 1], CopyDone(t))
    ensures var s := run[|run| - 1];
            var r := ThreadOf(Apply(s, CopyDone(t)), t).pc.r;
            && r.snapshot == ListOf(s.lists, r.subject)
            && r.seen == Window(s, r.subject)
  {
    InvRun(run);
    CopyDoneStep(run[|run| - 1], t);
  }

  /**
   * Readiness: a subscription that was between ready() and deregistration when a call completed its
   * snapshot has accepted the message exactly once if the call returned nil.
   */
  lemma ReadyMeansDelivered(run: seq<State>, t: nat, k: nat, c: Chan)
    requires IsRun(run) && k < |ThreadOf(run[|run| - 1], t).past|
    requires c in ThreadOf(run[|run| - 1], t).past[k].seen
    requires ThreadOf(run[|run| - 1], t).past[k].ok == Some(true)
    ensures Accepted(run[|run| - 1], c, ThreadOf(run[|run| - 1], t).past[k].e) == 1
  {
    InvRun(run);
    var s := run[|run| - 1];
    assert ThreadOk(s, t) && Calls(ThreadOf(s, t))[k] == ThreadOf(s, t).past[k];
    assert RecordOk(Calls(ThreadOf(s, t))[k], t, k);
    PublishOutcome(run, t, k, c);
  }

  // ---------------------------------------------------------------------------
  // Waiting and locks
  // ---------------------------------------------------------------------------

  /** A sending goroutine can take a step of its own. */
  ghost predicate CanMove(s: State, t: nat) {
    Enabled(s, Send(t)) || Enabled(s, SendToWaiting(t)) || Enabled(s, Abort(t)) || Enabled(s, Return(t))
  }

  /**
   * A publisher waits only for a channel that cannot accept while its context is live, and it holds
   * no lock meanwhile.
   */
  lemma WaitsOnlyForChannel(run: seq<State>, t: nat)
    requires IsRun(run) && ThreadOf(run[|run| - 1], t).pc.Sending?
    ensures !Reading(run[|run| - 1], t)
    ensures !CanMove(run[|run| - 1], t) <==> WaitsForChannel(run[|run| - 1], t)
  {
    var s := run[|run| - 1];
    ThreadFact(run, t);
    SendingIsSomewhere(s, t);
    if AtChannel(s, t) {
      var r := ThreadOf(s, t).pc.r;
      CellFact(run, r.snapshot[r.sent]);
      MovesOrWaits(s, t, Target(s, t));
    }
  }

  lemma MovesOrWaits(s: State, t: nat, x: Cell)
    requires AtChannel(s, t) && x == Target(s, t) && |x.buf| <= x.cap
    ensures !CanMove(s, t) <==> WaitsForChannel(s, t)
  {
  }

  /** The goroutine's context is live and its channel is full, without a receiver ready to take. */
  predicate WaitsForChannel(s: State, t: nat) {
    && AtChannel(s, t) && !ThreadOf(s, t).done
    && |Target(s, t).buf| == Target(s, t).cap
    && !(Target(s, t).stage.Idle? && Target(s, t).buf == [])
  }

  lemma SendingIsSomewhere(s: State, t: nat)
    requires ThreadOf(s, t).pc.Sending? && ThreadOk(s, t) && SentOk(s, t)
    ensures AtChannel(s, t) || Enabled(s, Return(t))
  {
    CurrentCall(s, t);
    var th := ThreadOf(s, t);
    var r := th.pc.r;
    if r.sent < |r.snapshot| {
      assert Calls(th)[|th.past|].snapshot[r.sent] in s.chans;
    }
  }

  /** The steps of taking and giving back the bus mutex; none depends on a channel. */
  predicate LockEvent(ev: Event) {
    ev.Lock? || ev.Write? || ev.CopyOne? || ev.CopyDone?
  }

  /** s' is reached from s by the given steps, all of this kind. */
  ghost predicate LockReach(s: State, s': State, evs: seq<Event>)
    decreases |evs|
  {
    if evs == [] then s == s'
    else LockEvent(evs[0]) && Enabled(s, evs[0]) && LockReach(Apply(s, evs[0]), s', evs[1..])
  }

  lemma {:induction false} LockReachJoin(s: State, mid: State, s': State, a: seq<Event>, b: seq<Event>)
    requires LockReach(s, mid, a) && LockReach(mid, s', b)
    ensures LockReach(s, s', a + b)
    decreases |a|
  {
    if a == [] {
      assert a + b == b;
    } else {
      assert (a + b)[1..] == a[1..] + b;
      LockReachJoin(Apply(s, a[0]), mid, s', a[1..], b);
    }
  }

  /** A reader completes its snapshot and gives back the read lock by its own steps. */
  lemma {:induction false} ReaderFinishes(s: State, t: nat) returns (s': State, evs: seq<Event>)
    requires Reading(s, t)
    ensures LockReach(s, s', evs) && s'.chans == s.chans && s'.lists == s.lists && s'.writer == s.writer
    ensures !Reading(s', t) && forall u | u != t :: ThreadOf(s', u) == ThreadOf(s, u)
    decreases |ListOf(s.lists, ThreadOf(s, t).pc.subject)| - |ThreadOf(s, t).pc.copied|
  {
    var pc := ThreadOf(s, t).pc;
    if |pc.copied| < |ListOf(s.lists, pc.subject)| {
      var mid := Apply(s, CopyOne(t));
      s', evs := ReaderFinishes(mid, t);
      LockReachJoin(s, mid, s', [CopyOne(t)], evs);
      evs := [CopyOne(t)] + evs;
    } else {
      s', evs := Apply(s, CopyDone(t)), [CopyDone(t)];
    }
  }

  function Readers(s: State): set<nat> {
    set t | t in s.threads && Reading(s, t)
  }

  lemma {:induction false} ReadersFinish(s: State) returns (s': State, evs: seq<Event>)
    ensures LockReach(s, s', evs) && s'.chans == s.chans && s'.lists == s.lists && s'.writer == s.writer
    ensures NoReader(s')
    decreases |Readers(s)|
  {
    if Readers(s) == {} {
      s', evs := s, [];
      forall t | t in s.threads ensures !Reading(s, t) {
        assert t !in Readers(s);
      }
    } else {
      var t :| t in Readers(s);
      var mid, m := ReaderFinishes(s, t);
      forall u ensures u in Readers(mid) ==> u in Readers(s) - {t} {
        if u in Readers(mid) {
          assert Reading(s, u);
        }
      }
      assert Readers(mid) <= Readers(s) - {t};
      SmallerSet(Readers(mid), Readers(s), t);
      s', evs := ReadersFinish(mid);
      LockReachJoin(s, mid, s', m, evs);
      evs := m + evs;
    }
  }

  lemma {:induction false} SmallerSet(a: set<nat>, b: set<nat>, t: nat)
    requires t in b && a <= b - {t}
    ensures |a| < |b|
    decreases |a|
  {
    if a == {} {
    } else {
      var x :| x in a;
      if |b - {x}| > 0 {
        SmallerSet(a - {x}, b - {x}, t);
      }
    }
  }

  /** Everything about a channel that registering or deregistering leaves alone. */
  predicate SameQueues(x: Cell, y: Cell) {
    && y.buf == x.buf && y.accepted == x.accepted && y.handled == x.handled
    && y.out == x.out && y.taken == x.taken
    && y.bridge == x.bridge && y.done == x.done && y.closes == x.closes
  }

  /** Once nobody reads, the writer that has announced itself finishes by its own step. */
  lemma WriterFinishes(s: State) returns (s': State, evs: seq<Event>)
    requires LockOk(s) && NoReader(s)
    ensures LockReach(s, s', evs) && s'.writer.None? && NoReader(s') && s'.chans.Keys == s.chans.Keys
    ensures forall d | d in s.chans :: SameQueues(s.chans[d], s'.chans[d])
    ensures forall d | d in s.chans && s.writer != Some(d) :: s'.chans[d] == s.chans[d]
    ensures s.writer.Some? ==> s' == Registering(s, s.writer.value)
  {
    s', evs := s, [];
    if s.writer.Some? {
      s', evs := Registering(s, s.writer.value), [Write(s.writer.value)];
    }
  }

  /** With the mutex free and nobody reading, a channel registers or deregisters in two steps. */
  lemma WriteTakesTwoSteps(s: State, c: Chan) returns (s': State, evs: seq<Event>)
    requires s.writer.None? && NoReader(s)
    requires c in s.chans && (s.chans[c].stage.Created? || s.chans[c].stage.Leaving?)
    ensures LockReach(s, s', evs) && s'.chans.Keys == s.chans.Keys
    ensures s'.chans[c].stage == if s.chans[c].stage.Created? then Registered else Returned
    ensures forall d | d in s.chans :: SameQueues(s.chans[d], s'.chans[d])
  {
    var held := s.(writer := Some(c));
    s', evs := Registering(s, c), [Lock(c)] + [Write(c)];
    LockReachJoin(s, held, s', [Lock(c)], [Write(c)]);
  }

  /**
   * Subscribing and unsubscribing are never blocked by slow consumers: from every reachable state
   * the registration (or deregistration) can be completed by mutex steps alone, while no channel
   * moves, no matter which publishers are waiting for which channels.
   */
  lemma RegistrationProceeds(run: seq<State>, c: Chan) returns (s': State, evs: seq<Event>)
    requires IsRun(run) && c in run[|run| - 1].chans
    requires run[|run| - 1].chans[c].stage.Created? || run[|run| - 1].chans[c].stage.Leaving?
    ensures LockReach(run[|run| - 1], s', evs) && s'.chans.Keys == run[|run| - 1].chans.Keys
    ensures s'.chans[c].stage == if run[|run| - 1].chans[c].stage.Created? then Registered else Returned
    ensures forall d | d in run[|run| - 1].chans :: SameQueues(run[|run| - 1].chans[d], s'.chans[d])
  {
    InvRun(run);
    s', evs := RegistrationFrom(run[|run| - 1], c);
  }

  lemma RegistrationFrom(s: State, c: Chan) returns (s': State, evs: seq<Event>)
    requires LockOk(s) && c in s.chans && (s.chans[c].stage.Created? || s.chans[c].stage.Leaving?)
    ensures LockReach(s, s', evs) && s'.chans.Keys == s.chans.Keys
    ensures s'.chans[c].stage == if s.chans[c].stage.Created? then Registered else Returned
    ensures forall d | d in s.chans :: SameQueues(s.chans[d], s'.chans[d])
  {
    var quiet, k := ReadersFinish(s);
    var free, m := WriterFinishes(quiet);
    LockReachJoin(s, quiet, free, k, m);
    if s.writer == Some(c) {
      return free, k + m;
    }
    var w: seq<Event>;
    s', w := WriteTakesTwoSteps(free, c);
    LockReachJoin(s, free, s', k + m, w);
    evs := (k + m) + w;
  }

  /** How many steps a goroutine still needs to complete its copy and give back the read lock. */
  function CopiesLeft(s: State, t: nat): nat {
    var pc := ThreadOf(s, t).pc;
    if !pc.Copying? then 0
    else
      var list := ListOf(s.lists, pc.subject);
      1 + if |pc.copied| < |list| then |list| - |pc.copied| else 0
  }

  /** The same for the first n goroutines together. */
  function CopyWork(s: State, n: nat): nat {
    if n == 0 then 0 else CopyWork(s, n - 1) + CopiesLeft(s, n - 1)
  }

  ghost predicate ReadersBelow(s: State, n: nat) {
    forall t: nat | Reading(s, t) :: t < n
  }

  lemma {:induction false} CopyWorkShrinks(s: State, s': State, n: nat)
    requires forall t: nat :: CopiesLeft(s', t) <= CopiesLeft(s, t)
    ensures CopyWork(s', n) <= CopyWork(s, n)
    ensures forall t: nat | t < n && CopiesLeft(s', t) < CopiesLeft(s, t) :: CopyWork(s', n) < CopyWork(s, n)
  {
    if n == 0 {
    } else {
      CopyWorkShrinks(s, s', n - 1);
    }
  }

  /** No step but the writer's own gives a goroutine more to copy while a writer is announced. */
  lemma CopiesShrink(s: State, ev: Event, s': State, t: nat)
    requires s.writer.Some? && Enabled(s, ev) && s' == Apply(s, ev) && !ev.Write?
    ensures s'.lists == s.lists && s'.writer == s.writer
    ensures CopiesLeft(s', t) <= CopiesLeft(s, t)
    ensures LockEvent(ev) ==> ev.t < t || t < ev.t || CopiesLeft(s', t) < CopiesLeft(s, t)
  {
    if (ev.CopyOne? || ev.CopyDone?) && ev.t == t {
      assert Reading(s, t);
    }
  }

  /**
   * A writer that has announced itself is next: no other step takes its place or adds to the copying
   * it waits for, every further mutex step lessens that, and when nothing is left it can write.
   */
  lemma AnnouncedWriterIsNext(s: State, ev: Event, s': State, n: nat)
    requires LockOk(s) && s.writer.Some? && Enabled(s, ev) && s' == Apply(s, ev) && ReadersBelow(s, n)
    ensures !ev.Write? ==>
              && s'.writer == s.writer && ReadersBelow(s', n)
              && CopyWork(s', n) <= CopyWork(s, n)
              && (LockEvent(ev) ==> CopyWork(s', n) < CopyWork(s, n))
    ensures CopyWork(s, n) == 0 ==> Enabled(s, Write(s.writer.value))
  {
    if !ev.Write? {
      forall t: nat ensures CopiesLeft(s', t) <= CopiesLeft(s, t) && (Reading(s', t) ==> Reading(s, t)) {
        CopiesShrink(s, ev, s', t);
      }
      CopyWorkShrinks(s, s', n);
      if LockEvent(ev) {
        assert Reading(s, ev.t);
        CopiesShrink(s, ev, s', ev.t);
      }
    }
    if CopyWork(s, n) == 0 {
      forall t: nat ensures !Reading(s, t) {
        if Reading(s, t) {
          CopyWorkCounts(s, n, t);
        }
      }
    }
  }

  lemma {:induction false} CopyWorkCounts(s: State, n: nat, t: nat)
    requires t < n
    ensures CopiesLeft(s, t) <= CopyWork(s, n)
  {
    if t == n - 1 {
    } else {
      CopyWorkCounts(s, n - 1, t);
    }
  }

  // ---------------------------------------------------------------------------
  // ToChan
  // ---------------------------------------------------------------------------

  /** The log with some entries left out. */
  predicate Subsequence(a: seq<Entry>, b: seq<Entry>) {
    if a == [] then true
    else if b == [] then false
    else if a[|a| - 1] == b[|b| - 1] then Subsequence(a[..|a| - 1], b[..|b| - 1])
    else Subsequence(a, b[..|b| - 1])
  }

  /** That is: its entries stand in the log at ascending places. */
  lemma {:induction false} SubsequenceEmbeds(a: seq<Entry>, b: seq<Entry>) returns (at: seq<nat>)
    requires Subsequence(a, b)
    ensures |at| == |a| && forall i | 0 <= i < |a| :: at[i] < |b| && b[at[i]] == a[i]
    ensures forall i, j | 0 <= i < j < |at| :: at[i] < at[j]
    decreases |b|
  {
    if a == [] {
      at := [];
    } else if a[|a| - 1] == b[|b| - 1] {
      at := SubsequenceEmbeds(a[..|a| - 1], b[..|b| - 1]);
      at := at + [|b| - 1];
    } else {
      at := SubsequenceEmbeds(a, b[..|b| - 1]);
    }
  }

  lemma {:induction false} SubsequenceShift(a: seq<Entry>, b: seq<Entry>)
    requires Subsequence(a, b) && a != []
    ensures b != [] && Subsequence(a[..|a| - 1], b)
    decreases |b|
  {
    if a[|a| - 1] == b[|b| - 1] {
      var a', b' := a[..|a| - 1], b[..|b| - 1];
      if a' != [] {
        if a'[|a'| - 1] == b[|b| - 1] {
          SubsequenceShift(a', b');
        }
      }
    } else {
      var b' := b[..|b| - 1];
      SubsequenceShift(a, b');
      var a' := a[..|a| - 1];
      if a' != [] && a'[|a'| - 1] == b[|b| - 1] {
        SubsequenceShift(a', b');
      }
    }
  }

  lemma {:induction false} PassedOnIsSubsequence(hs: seq<Handled>)
    ensures Subsequence(PassedOn(hs), Entries(hs))
    ensures (forall i | 0 <= i < |hs| :: hs[i].passed) ==> PassedOn(hs) == Entries(hs)
  {
    if hs == [] {
    } else {
      var before, last := hs[..|hs| - 1], hs[|hs| - 1];
      PassedOnIsSubsequence(before);
      var a, b := PassedOn(hs), Entries(hs);
      assert b[..|b| - 1] == Entries(before);
      if last.passed {
        assert a[..|a| - 1] == PassedOn(before);
      } else {
        assert a == PassedOn(before);
        if a != [] && a[|a| - 1] == last.e {
          SubsequenceShift(a, Entries(before));
        }
      }
    }
  }

  /**
   * The two queues behind ToChan. Until cancellation they hold everything accepted, in order; after
   * it, what was passed on is still in order, without duplicates. The output channel is closed at
   * most once, only after the subscription returned, and no run sends on it afterwards.
   */
  lemma BridgeQueues(run: seq<State>, c: Chan)
    requires IsRun(run) && c in run[|run| - 1].chans && run[|run| - 1].chans[c].bridge.Some?
    ensures var x := run[|run| - 1].chans[c];
            && (!x.done ==> x.taken + x.out + InHand(x) + x.buf == x.accepted)
            && Subsequence(x.taken + x.out, Entries(x.handled)) && Entries(x.handled) <= x.accepted
            && |x.out| <= x.bridge.value && |x.buf| <= x.cap
            && x.closes <= 1 && (x.closes == 1 <==> x.stage.Closed?) && !x.panicked
  {
    CellFact(run, c);
    var x := run[|run| - 1].chans[c];
    PassedOnIsSubsequence(x.handled);
    UncancelledBridge(x);
  }

  lemma UncancelledBridge(x: Cell)
    requires CellOk(x) && x.bridge.Some?
    ensures !x.done ==> x.taken + x.out + InHand(x) + x.buf == x.accepted
  {
    PassedOnIsSubsequence(x.handled);
  }

  /** The receive loop has returned. */
  predicate Ended(x: Cell) {
    x.stage.Leaving? || x.stage.Returned? || x.stage.Closed?
  }

  /** Once the loop has returned nothing is handled any more and the buffer keeps what it holds. */
  predicate StaysEnded(x: Cell, y: Cell) {
    && (x.stage.Returned? || x.stage.Closed? ==> y.stage.Returned? || y.stage.Closed?)
    && (Ended(x) ==> Ended(y) && y.handled == x.handled && x.buf <= y.buf)
  }

  lemma LocalStaysEnded(x: Cell, l: Local)
    requires LocalEnabled(x, l)
    ensures StaysEnded(x, LocalApply(x, l))
    ensures LocalApply(x, l).closes > x.closes ==> x.stage.Returned? && l.Close?
  {
  }

  lemma AcceptingStaysEnded(s: State, t: nat, waiting: bool, c: Chan)
    requires AtChannel(s, t) && (waiting ==> Target(s, t).stage.Idle?) && c in s.chans
    ensures var y := Accepting(s, t, waiting).chans[c];
            StaysEnded(s.chans[c], y) && y.closes == s.chans[c].closes
  {
  }

  /** Closing follows the return of the receive loop, which is final. */
  lemma CloseIsLast(s: State, ev: Event, c: Chan, s': State)
    requires Enabled(s, ev) && s' == Apply(s, ev) && c in s.chans
    ensures c in s'.chans && StaysEnded(s.chans[c], s'.chans[c])
    ensures s'.chans[c].closes > s.chans[c].closes ==> s.chans[c].stage.Returned? && ev == AtCell(c, Close)
  {
    match ev
    case AtCell(d, l) => LocalStaysEnded(s.chans[d], l);
    case Send(t) => AcceptingStaysEnded(s, t, false, c);
    case SendToWaiting(t) => AcceptingStaysEnded(s, t, true, c);
    case _ =>
  }

  lemma {:induction false} ExtendByLocks(run: seq<State>, s': State, evs: seq<Event>) returns (longer: seq<State>)
    requires IsRun(run) && LockReach(run[|run| - 1], s', evs)
    ensures IsRun(longer) && run <= longer && longer[|longer| - 1] == s'
    decreases |evs|
  {
    longer := run;
    if evs == [] {
    } else {
      longer := Extend(run, evs[0]);
      longer := ExtendByLocks(longer, s', evs[1..]);
    }
  }

  /** How many stages a cancelled bridge is away from the close of its output channel. */
  function StagesLeft(stage: Stage): nat {
    match stage
    case Created => 6
    case Registered => 5
    case Handling(_) => 4
    case Idle => 3
    case Leaving => 2
    case Returned => 1
    case Closed => 0
  }

  /** y is x at a later stage on its way to the close, and its consumer took nothing. */
  predicate FurtherOn(x: Cell, y: Cell) {
    StagesLeft(y.stage) < StagesLeft(x.stage) && y.bridge.Some? && y.done && y.taken == x.taken
  }

  /** What a cancelled bridge does next without the bus mutex. */
  function NextMove(stage: Stage): Local
    requires !stage.Created? && !stage.Leaving? && !stage.Closed?
  {
    match stage
    case Registered => Ready
    case Handling(_) => Drop
    case Idle => Leave
    case Returned => Close
  }

  /** The next stage of a cancelled bridge, reached while no other channel moves. */
  lemma BridgeMovesOn(run: seq<State>, c: Chan, x: Cell) returns (longer: seq<State>)
    requires IsRun(run) && c in run[|run| - 1].chans && run[|run| - 1].chans[c] == x
    requires x.bridge.Some? && x.done && !x.stage.Closed?
    ensures IsRun(longer) && run <= longer
    ensures var s, s' := run[|run| - 1], longer[|longer| - 1];
            && s'.chans.Keys == s.chans.Keys && FurtherOn(x, s'.chans[c])
            && forall d | d in s.chans && d != c :: SameQueues(s.chans[d], s'.chans[d])
  {
    if x.stage.Created? || x.stage.Leaving? {
      var s', evs := RegistrationProceeds(run, c);
      longer := ExtendByLocks(run, s', evs);
      assert SameQueues(x, s'.chans[c]);
    } else {
      longer := Extend(run, AtCell(c, NextMove(x.stage)));
    }
  }

  /**
   * From every reachable state a cancelled ToChan can go on to close its output channel, exactly
   * once, although its consumer takes nothing more and no other channel moves.
   */
  lemma {:induction false} BridgeCloses(run: seq<State>, c: Chan) returns (longer: seq<State>)
    requires IsRun(run) && c in run[|run| - 1].chans
    requires run[|run| - 1].chans[c].bridge.Some? && run[|run| - 1].chans[c].done
    ensures IsRun(longer) && run <= longer
    ensures var s, s' := run[|run| - 1], longer[|longer| - 1];
            && s'.chans.Keys == s.chans.Keys
            && s'.chans[c].stage == Closed && s'.chans[c].closes == 1 && s'.chans[c].taken == s.chans[c].taken
            && forall d | d in s.chans && d != c :: SameQueues(s.chans[d], s'.chans[d])
    decreases StagesLeft(run[|run| - 1].chans[c].stage)
  {
    if run[|run| - 1].chans[c].stage.Closed? {
      CellFact(run, c);
      longer := run;
    } else {
      var next := BridgeMovesOn(run, c, run[|run| - 1].chans[c]);
      longer := BridgeCloses(next, c);
    }
  }
}
