/** The subject table of the channel bus as a value, and what any history of calls makes of it. */
module Subscriptions {

  /** Identifies a Go channel; every subscription makes a new one. */
  type Chan = nat

  type Table = map<string, seq<Chan>>

  function ListOf(t: Table, subject: string): seq<Chan> {
    if subject in t then t[subject] else []
  }

  function Add(t: Table, subject: string, c: Chan): Table {
    t[subject := ListOf(t, subject) + [c]]
  }

  function RemoveFirst(s: seq<Chan>, c: Chan): seq<Chan> {
    if s == [] then []
    else if s[0] == c then s[1..]
    else [s[0]] + RemoveFirst(s[1..], c)
  }

  function Remove(t: Table, subject: string, c: Chan): Table {
    if c in ListOf(t, subject) then t[subject := RemoveFirst(t[subject], c)] else t
  }

  /** s without the element at index i. */
  function Without(s: seq<Chan>, i: nat): (r: seq<Chan>)
    requires i < |s|
    ensures |r| == |s| - 1
  {
    s[..i] + s[i + 1..]
  }

  lemma {:induction false} RemoveFirstAt(s: seq<Chan>, c: Chan, i: nat)
    requires i < |s| && s[i] == c && c !in s[..i]
    ensures RemoveFirst(s, c) == Without(s, i)
  {
    if i == 0 {
    } else {
      assert s[0] in s[..i];
      assert s[1..][..i - 1] == s[..i][1..];
      RemoveFirstAt(s[1..], c, i - 1);
      assert [s[0]] + (s[1..][..i - 1] + s[1..][i..]) == s[..i] + s[i + 1..];
    }
  }

  lemma {:induction false} RemoveFirstAbsent(s: seq<Chan>, c: Chan)
    requires c !in s
    ensures RemoveFirst(s, c) == s
  {
    if s == [] {
    } else {
      RemoveFirstAbsent(s[1..], c);
    }
  }

  // ---------------------------------------------------------------------------
  // Histories
  // ---------------------------------------------------------------------------

  datatype Op = Subscribe(subject: string, c: Chan) | Unsubscribe(subject: string, c: Chan)

  function Perform(t: Table, op: Op): Table {
    match op
    case Subscribe(s, c) => Add(t, s, c)
    case Unsubscribe(s, c) => Remove(t, s, c)
  }

  function Replay(ops: seq<Op>): Table {
    if ops == [] then map[] else Perform(Replay(ops[..|ops| - 1]), ops[|ops| - 1])
  }

  /** The channels registered on a subject and not removed later, in the order of registration. */
  function Live(ops: seq<Op>, subject: string): seq<Chan> {
    if ops == [] then []
    else
      var rest := Live(ops[1..], subject);
      if ops[0].Subscribe? && ops[0].subject == subject && Unsubscribe(subject, ops[0].c) !in ops[1..]
      then [ops[0].c] + rest
      else rest
  }

  /** Every subscription brings its own channel. */
  ghost predicate OwnChannels(ops: seq<Op>) {
    forall i, j | 0 <= i < j < |ops| && ops[i].Subscribe? && ops[j].Subscribe? :: ops[i].c != ops[j].c
  }

  lemma {:induction false} LiveSubscribe(ops: seq<Op>, op: Op, subject: string)
    requires op.Subscribe?
    ensures Live(ops + [op], subject)
         == if op.subject == subject then Live(ops, subject) + [op.c] else Live(ops, subject)
  {
    if ops == [] {
      assert ops + [op] == [op] && [op][1..] == [];
    } else {
      assert (ops + [op])[1..] == ops[1..] + [op];
      LiveSubscribe(ops[1..], op, subject);
    }
  }

  lemma {:induction false} LiveMembers(ops: seq<Op>, subject: string)
    ensures forall c | c in Live(ops, subject) :: Subscribe(subject, c) in ops
  {
    if ops == [] {
    } else {
      LiveMembers(ops[1..], subject);
    }
  }

  lemma {:induction false} LiveUnsubscribe(ops: seq<Op>, op: Op, subject: string)
    requires op.Unsubscribe? && OwnChannels(ops)
    ensures Live(ops + [op], subject)
         == if op.subject == subject then RemoveFirst(Live(ops, subject), op.c) else Live(ops, subject)
  {
    if ops == [] {
      assert ops + [op] == [op] && [op][1..] == [];
    } else {
      assert (ops + [op])[1..] == ops[1..] + [op];
      LiveUnsubscribe(ops[1..], op, subject);
      if ops[0] == Subscribe(subject, op.c) && op.subject == subject {
        LiveMembers(ops[1..], subject);
        var rest := Live(ops[1..], subject);
        forall j | 0 <= j < |ops[1..]| ensures ops[1..][j] != Subscribe(subject, op.c) {
          assert ops[1..][j] == ops[j + 1];
        }
        RemoveFirstAbsent(rest, op.c);
      }
    }
  }

  /** After any history each subject's list is exactly its live channels, oldest first. */
  lemma {:induction false} ReplayIsLive(ops: seq<Op>, subject: string)
    requires OwnChannels(ops)
    ensures ListOf(Replay(ops), subject) == Live(ops, subject)
  {
    if ops == [] {
    } else {
      var before, op := ops[..|ops| - 1], ops[|ops| - 1];
      ReplayIsLive(before, subject);
      assert before + [op] == ops;
      if op.Subscribe? {
        LiveSubscribe(before, op, subject);
      } else {
        LiveUnsubscribe(before, op, subject);
        RemoveAnywhere(Replay(before), op.subject, op.c, subject);
      }
    }
  }

  lemma RemoveAnywhere(t: Table, subject: string, c: Chan, other: string)
    ensures ListOf(Remove(t, subject, c), other)
         == if other == subject then RemoveFirst(ListOf(t, subject), c) else ListOf(t, other)
  {
    if c !in ListOf(t, subject) {
      RemoveFirstAbsent(ListOf(t, subject), c);
    }
  }

  /** Each live channel is listed once, under the subject it was registered for. */
  lemma {:induction false} LiveDistinct(ops: seq<Op>, subject: string)
    requires OwnChannels(ops)
    ensures forall i, j | 0 <= i < j < |Live(ops, subject)| :: Live(ops, subject)[i] != Live(ops, subject)[j]
  {
    if ops == [] {
    } else {
      LiveDistinct(ops[1..], subject);
      LiveMembers(ops[1..], subject);
      var l, rest := Live(ops, subject), Live(ops[1..], subject);
      forall i, j | 0 <= i < j < |l| ensures l[i] != l[j] {
        if |l| == |rest| + 1 && i == 0 {
          assert Subscribe(subject, l[j]) in ops[1..];
          var k :| 0 <= k < |ops[1..]| && ops[1..][k] == Subscribe(subject, l[j]);
          assert ops[k + 1].c == l[j];
        }
      }
    }
  }
}
