/**
 * The channel bus seen from the calls: what happens to the arguments of a publish call, of a
 * subscription and of ToChan, from the step that makes the call to the end of any run.
 */
module Deliveries {
  import opened Core
  import opened Subscriptions
  import opened Broker
  import opened BrokerLaws
  import Endings

  /** The i-th step of the run is this event. */
  ghost predicate StepAt(run: seq<State>, i: nat, ev: Event) {
    i + 1 < |run| && Enabled(run[i], ev) && run[i + 1] == Apply(run[i], ev)
  }

  // ---------------------------------------------------------------------------
  // Subscriptions keep their arguments
  // ---------------------------------------------------------------------------

  predicate SameMaking(x: Cell, y: Cell) {
    y.subject == x.subject && y.cap == x.cap && y.bridge == x.bridge
  }

  lemma LocalKeepsMaking(x: Cell, l: Local)
    requires LocalEnabled(x, l)
    ensures SameMaking(x, LocalApply(x, l))
  {
  }

  lemma AcceptingKeepsMaking(s: State, t: nat, waiting: bool, c: Chan)
    requires AtChannel(s, t) && c in s.chans
    ensures SameMaking(s.chans[c], Accepting(s, t, waiting).chans[c])
  {
  }

  lemma StepKeepsMaking(s: State, ev: Event, c: Chan, s': State)
    requires Enabled(s, ev) && s' == Apply(s, ev) && c in s.chans
    ensures c in s'.chans && SameMaking(s.chans[c], s'.chans[c])
  {
    match ev
    case AtCell(d, l) => LocalKeepsMaking(s.chans[d], l);
    case Send(t) => AcceptingKeepsMaking(s, t, false, c);
    case SendToWaiting(t) => AcceptingKeepsMaking(s, t, true, c);
    case _ =>
  }

  lemma {:induction false} RunKeepsMaking(run: seq<State>, from: nat, c: Chan)
    requires IsRun(run) && from < |run| && c in run[from].chans
    ensures c in run[|run| - 1].chans && SameMaking(run[from].chans[c], run[|run| - 1].chans[c])
    decreases |run|
  {
    if from == |run| - 1 {
    } else {
      var before, ev := LastEvent(run);
      assert before[from] == run[from];
      RunKeepsMaking(before, from, c);
      StepKeepsMaking(before[|before| - 1], ev, c, run[|run| - 1]);
    }
  }

  /** In every run a subscription keeps the subject, the buffer size and the bridge it was made with. */
  lemma MadeAs(run: seq<State>, i: nat, c: Chan, subject: string, cap: nat, bridge: Option<nat>)
    requires IsRun(run) && StepAt(run, i, Make(c, subject, cap, bridge))
    ensures c in run[|run| - 1].chans
    ensures var x := run[|run| - 1].chans[c]; x.subject == subject && x.cap == cap && x.bridge == bridge
  {
    RunKeepsMaking(run, i + 1, c);
  }

  // ---------------------------------------------------------------------------
  // Publish calls keep their arguments
  // ---------------------------------------------------------------------------

  /** The call is the goroutine's k-th and still copies its snapshot. */
  predicate StillCopying(s: State, t: nat, e: Entry, subject: string) {
    var th := ThreadOf(s, t);
    th.pc.Copying? && |th.past| == e.call && th.pc.e == e && th.pc.subject == subject
  }

  /** The call sends, or sent, this message to this snapshot. */
  predicate HasRecord(s: State, t: nat, e: Entry, subject: string, snapshot: seq<Chan>) {
    var calls := Calls(ThreadOf(s, t));
    && e.call < |calls|
    && calls[e.call].e == e && calls[e.call].subject == subject && calls[e.call].snapshot == snapshot
  }

  lemma StillCopyingStep(s: State, ev: Event, t: nat, e: Entry, subject: string, s': State)
    requires Inv(s) && Enabled(s, ev) && s' == Apply(s, ev) && StillCopying(s, t, e, subject)
    ensures if ev == CopyDone(t) then HasRecord(s', t, e, subject, ListOf(s.lists, subject))
            else StillCopying(s', t, e, subject)
  {
    if ev == CopyDone(t) {
      CopyDoneStep(s, t);
    }
  }

  lemma HasRecordStep(s: State, ev: Event, t: nat, e: Entry, subject: string, snapshot: seq<Chan>, s': State)
    requires Enabled(s, ev) && s' == Apply(s, ev) && HasRecord(s, t, e, subject, snapshot)
    ensures HasRecord(s', t, e, subject, snapshot)
  {
    ThreadGoesOn(s, ev, t, s');
    var th, th' := ThreadOf(s, t), ThreadOf(s', t);
    if e.call < |th.past| {
      assert Calls(th)[e.call] == th.past[e.call] && Calls(th')[e.call] == th'.past[e.call];
    }
  }

  /** Finished calls stay, and the one in progress keeps its message, subject and snapshot. */
  lemma ThreadGoesOn(s: State, ev: Event, t: nat, s': State)
    requires Enabled(s, ev) && s' == Apply(s, ev)
    ensures var th, th' := ThreadOf(s, t), ThreadOf(s', t);
            && th.past <= th'.past
            && (th.pc.Sending? ==>
                 var r := th.pc.r;
                 if th'.past == th.past
                 then th'.pc.Sending? && th'.pc.r.(sent := r.sent) == r
                 else |th'.past| == |th.past| + 1 && th'.past[|th.past|].(ok := r.ok) == r)
  {
    match ev
    case Send(u) =>
    case SendToWaiting(u) =>
    case Abort(u) =>
    case Return(u) =>
    case _ =>
  }

  /** Since step i the call has come from its beginning over the end of its copy, at step j. */
  ghost predicate CopiedAt(run: seq<State>, i: nat, j: nat, t: nat, e: Entry, subject: string) {
    && i < j && StepAt(run, j, CopyDone(t)) && |ThreadOf(run[j], t).past| == e.call
    && HasRecord(run[|run| - 1], t, e, subject, ListOf(run[j].lists, subject))
  }

  lemma CallBegins(s: State, t: nat, subject: string, payload: Payload, s': State)
    requires Enabled(s, Begin(t, subject, payload)) && s' == Apply(s, Begin(t, subject, payload))
    ensures StillCopying(s', t, Entry(t, |ThreadOf(s, t).past|, payload), subject)
    ensures ThreadOf(s', t).past == ThreadOf(s, t).past && !ThreadOf(s', t).done
  {
  }

  /** A longer run has the same steps. */
  lemma CopiedEarlier(before: seq<State>, run: seq<State>, i: nat, j: nat, t: nat, e: Entry, subject: string, ev: Event)
    requires |run| > 1 && before == run[..|run| - 1] && CopiedAt(before, i, j, t, e, subject)
    requires Enabled(before[|before| - 1], ev) && run[|run| - 1] == Apply(before[|before| - 1], ev)
    ensures CopiedAt(run, i, j, t, e, subject)
  {
    HasRecordStep(before[|before| - 1], ev, t, e, subject, ListOf(before[j].lists, subject), run[|run| - 1]);
    assert run[j] == before[j] && run[j + 1] == before[j + 1];
  }

  lemma CopiedNow(before: seq<State>, run: seq<State>, i: nat, t: nat, e: Entry, subject: string)
    requires |run| > 1 && before == run[..|run| - 1] && i < |before| - 1 && Inv(before[|before| - 1])
    requires StillCopying(before[|before| - 1], t, e, subject)
    requires Enabled(before[|before| - 1], CopyDone(t))
    requires run[|run| - 1] == Apply(before[|before| - 1], CopyDone(t))
    ensures CopiedAt(run, i, |before| - 1, t, e, subject)
  {
    StillCopyingStep(before[|before| - 1], CopyDone(t), t, e, subject, run[|run| - 1]);
    assert run[|before| - 1] == before[|before| - 1];
  }

  /** One more step of the run. */
  lemma CallStep(before: seq<State>, run: seq<State>, ev: Event, i: nat, j: nat, t: nat, e: Entry, subject: string)
    returns (j': nat)
    requires IsRun(before) && |run| > 1 && before == run[..|run| - 1] && i < |before| - 1
    requires Enabled(before[|before| - 1], ev) && run[|run| - 1] == Apply(before[|before| - 1], ev)
    requires StillCopying(before[|before| - 1], t, e, subject) || CopiedAt(before, i, j, t, e, subject)
    ensures StillCopying(run[|run| - 1], t, e, subject) || CopiedAt(run, i, j', t, e, subject)
  {
    j' := j;
    if CopiedAt(before, i, j, t, e, subject) {
      CopiedEarlier(before, run, i, j, t, e, subject, ev);
    } else {
      InvRun(before);
      if ev == CopyDone(t) {
        j' := |before| - 1;
        CopiedNow(before, run, i, t, e, subject);
      } else {
        StillCopyingStep(before[|before| - 1], ev, t, e, subject, run[|run| - 1]);
      }
    }
  }

  lemma {:induction false} CallGoesOn(run: seq<State>, i: nat, t: nat, subject: string, payload: Payload, e: Entry)
    returns (j: nat)
    requires IsRun(run) && StepAt(run, i, Begin(t, subject, payload))
    requires e == Entry(t, |ThreadOf(run[i], t).past|, payload)
    ensures StillCopying(run[|run| - 1], t, e, subject) || CopiedAt(run, i, j, t, e, subject)
    decreases |run|
  {
    if i + 2 == |run| {
      j := 0;
      CallBegins(run[i], t, subject, payload, run[i + 1]);
    } else {
      var before, ev := LastEvent(run);
      j := CallGoesOn(before, i, t, subject, payload, e);
      j := CallStep(before, run, ev, i, j, t, e, subject);
    }
  }

  /** ready() was called for the subscription, and it is not deregistered yet. */
  predicate ReadyOn(s: State, c: Chan, subject: string) {
    && c in s.chans && s.chans[c].subject == subject && s.chans[c].readies == 1
    && !s.chans[c].stage.Returned? && !s.chans[c].stage.Closed?
  }

  /** Where the message of a call with these arguments has gone, the copy having ended in state `at`. */
  ghost predicate WentTo(at: State, end: State, subject: string, e: Entry, sent: nat) {
    var list := ListOf(at.lists, subject);
    && sent <= |list|
    && (forall c: Chan :: Accepted(end, c, e) == if c in list[..sent] then 1 else 0)
    && (forall c: Chan | c in end.chans && end.chans[c].subject != subject :: Accepted(end, c, e) == 0)
    && (sent == |list| ==> forall c: Chan | ReadyOn(at, c, subject) :: Accepted(end, c, e) == 1)
  }

  /**
   * Over all runs: a call Publish(subject, payload) that has returned reached, each exactly once, the
   * channels in a prefix of the subject's list at the end of its copy, and no channel of another
   * subject. It returned nil exactly if that was the whole list; then every subscription for the
   * subject that was between ready() and deregistration at that moment accepted the payload once.
   */
  lemma PublishReaches(run: seq<State>, i: nat, t: nat, subject: string, payload: Payload, e: Entry)
    returns (j: nat)
    requires IsRun(run) && StepAt(run, i, Begin(t, subject, payload))
    requires e == Entry(t, |ThreadOf(run[i], t).past|, payload)
    requires e.call < |ThreadOf(run[|run| - 1], t).past|
    ensures i < j && StepAt(run, j, CopyDone(t)) && |ThreadOf(run[j], t).past| == e.call
    ensures var r := ThreadOf(run[|run| - 1], t).past[e.call];
            && WentTo(run[j], run[|run| - 1], subject, e, r.sent)
            && r.ok == Some(r.sent == |ListOf(run[j].lists, subject)|)
  {
    j := CallGoesOn(run, i, t, subject, payload, e);
    var end := run[|run| - 1];
    CopiedOutcome(run, i, j, t, subject, e, run[j], end, ThreadOf(end, t).past[e.call]);
  }

  lemma CopiedOutcome(run: seq<State>, i: nat, j: nat, t: nat, subject: string, e: Entry,
                      at: State, end: State, r: Record)
    requires IsRun(run) && CopiedAt(run, i, j, t, e, subject) && at == run[j] && end == run[|run| - 1]
    requires e.call < |ThreadOf(end, t).past| && ThreadOf(end, t).past[e.call] == r
    ensures WentTo(at, end, subject, e, r.sent) && r.ok == Some(r.sent == |ListOf(at.lists, subject)|)
  {
    assert Calls(ThreadOf(end, t))[e.call] == r;
    RecordOutcome(run, t, e, r);
    ListedIsOnSubject(run, j, subject);
    ReadyIsListed(run[..j + 1], at, subject);
    ListTells(at, end, subject, e, r);
  }

  lemma RecordOutcome(run: seq<State>, t: nat, e: Entry, r: Record)
    requires IsRun(run) && e.call < |ThreadOf(run[|run| - 1], t).past|
    requires ThreadOf(run[|run| - 1], t).past[e.call] == r && r.e == e
    ensures r.sent <= |r.snapshot| && r.ok == Some(r.sent == |r.snapshot|)
    ensures forall c: Chan :: Accepted(run[|run| - 1], c, e) == if c in r.snapshot[..r.sent] then 1 else 0
  {
    PublishOutcome(run, t, e.call, 0);
    forall c: Chan ensures Accepted(run[|run| - 1], c, e) == if c in r.snapshot[..r.sent] then 1 else 0 {
      PublishOutcome(run, t, e.call, c);
    }
  }

  lemma ListTells(at: State, end: State, subject: string, e: Entry, r: Record)
    requires r.snapshot == ListOf(at.lists, subject) && r.sent <= |r.snapshot|
    requires forall c: Chan :: Accepted(end, c, e) == if c in r.snapshot[..r.sent] then 1 else 0
    requires forall c | c in ListOf(at.lists, subject) :: c in end.chans && end.chans[c].subject == subject
    requires forall c: Chan | ReadyOn(at, c, subject) :: c in ListOf(at.lists, subject)
    ensures WentTo(at, end, subject, e, r.sent)
  {
    assert r.snapshot[..|r.snapshot|] == r.snapshot;
    forall c: Chan | c in end.chans && end.chans[c].subject != subject ensures Accepted(end, c, e) == 0 {
      assert c !in r.snapshot;
    }
  }

  /** What is on a subject's list once is on that subject for good. */
  lemma ListedIsOnSubject(run: seq<State>, j: nat, subject: string)
    requires IsRun(run) && j < |run|
    ensures forall c | c in ListOf(run[j].lists, subject) ::
              c in run[|run| - 1].chans && run[|run| - 1].chans[c].subject == subject
  {
    InvRun(run[..j + 1]);
    forall c | c in ListOf(run[j].lists, subject)
      ensures c in run[|run| - 1].chans && run[|run| - 1].chans[c].subject == subject
    {
      RunKeepsMaking(run, j, c);
    }
  }

  lemma ReadyIsListed(run: seq<State>, s: State, subject: string)
    requires IsRun(run) && s == run[|run| - 1]
    ensures forall c: Chan | ReadyOn(s, c, subject) :: c in ListOf(s.lists, subject)
  {
    InvRun(run);
    forall c: Chan | ReadyOn(s, c, subject) ensures c in ListOf(s.lists, subject) {
      assert CellOk(s.chans[c]) && Listed(s.chans[c]);
    }
  }

  /** Cancelling its context ends a call that waits, with the context's error. */
  lemma CancelEndsCall(run: seq<State>, t: nat, r: Record) returns (longer: seq<State>)
    requires IsRun(run) && ThreadOf(run[|run| - 1], t).pc == Sending(r) && r.sent < |r.snapshot|
    ensures IsRun(longer) && run <= longer && longer[|longer| - 1].chans == run[|run| - 1].chans
    ensures ThreadOf(longer[|longer| - 1], t).past == ThreadOf(run[|run| - 1], t).past + [r.(ok := Some(false))]
    ensures ThreadOf(longer[|longer| - 1], t).pc == Quiet
  {
    longer := Extend(run, CancelCall(t));
    longer := Extend(longer, Abort(t));
  }

  // ---------------------------------------------------------------------------
  // A bridge at work
  // ---------------------------------------------------------------------------

  /** A bridge in its receive loop takes a message straight from a publisher. */
  lemma BridgeHandles(cap: nat, size: nat, e: Entry) returns (run: seq<State>)
    requires e == Entry(0, 0, "m")
    ensures IsRun(run)
    ensures run[|run| - 1].chans
         == map[0 := Endings.Waiting(cap, Some(size), []).(stage := Handling(e), accepted := [e])]
  {
    run := Endings.Subscribed(cap, Some(size));
    run := Endings.Snapshotted(run, cap, Some(size), []);
    run := Extend(run, SendToWaiting(0));
    assert [] + [e] == [e];
  }

  lemma Moves(run: seq<State>, x: Cell, l: Local) returns (longer: seq<State>)
    requires IsRun(run) && run[|run| - 1].chans == map[0 := x] && LocalEnabled(x, l)
    ensures IsRun(longer) && longer[|longer| - 1].chans == map[0 := LocalApply(x, l)]
  {
    longer := Extend(run, AtCell(0, l));
  }

  /** For every buffer size and every size given to ToChan a published message can come out. */
  lemma BridgePasses(cap: nat, size: nat) returns (run: seq<State>)
    ensures IsRun(run) && 0 in run[|run| - 1].chans
    ensures var x := run[|run| - 1].chans[0];
            && x.cap == cap && x.bridge == Some(size) && x.subject == Endings.SUBJECT
            && x.taken == [Entry(0, 0, "m")] && x.accepted == x.taken && x.stage.Idle?
  {
    var e := Entry(0, 0, "m");
    var x := Endings.Waiting(cap, Some(size), []).(stage := Handling(e), accepted := [e]);
    run := BridgeHandles(cap, size, e);
    if size == 0 {
      run := Moves(run, x, Handoff);
      assert LocalApply(x, Handoff).taken == [e];
    } else {
      var y := LocalApply(x, Forward);
      assert y.out == [e];
      run := Moves(run, x, Forward);
      run := Moves(run, y, Take);
      assert LocalApply(y, Take).taken == [e];
    }
  }

  /** ... and cancelling the bridge afterwards can close its output. */
  lemma BridgePassesAndCloses(cap: nat, size: nat) returns (run: seq<State>)
    ensures IsRun(run) && 0 in run[|run| - 1].chans
    ensures var x := run[|run| - 1].chans[0];
            x.cap == cap && x.bridge == Some(size) && x.taken == [Entry(0, 0, "m")] && x.stage.Closed? && x.closes == 1
  {
    run := BridgePasses(cap, size);
    run := Extend(run, AtCell(0, Cancel));
    var cancelled := run;
    run := BridgeCloses(cancelled, 0);
    RunKeepsMaking(run, |cancelled| - 1, 0);
  }
}
