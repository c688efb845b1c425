/** The channel bus of transport/channel/bus.go at the level of Go slices and their arrays. */
module Bus {
  import opened Core
  import opened Subscriptions

  /** A slice header: a backing array (null for a nil slice) and a length; the array is its capacity. */
  datatype Slice = Slice(arr: array?<Chan>, len: nat) {

    ghost predicate Valid() {
      len <= if arr == null then 0 else arr.Length
    }

    ghost function View(): seq<Chan>
      reads arr
      requires Valid()
    {
      if arr == null then [] else arr[..len]
    }
  }

  /** append(s, c): in place while there is spare capacity, otherwise into a new, larger array. */
  method Append(s: Slice, c: Chan, spare: nat) returns (r: Slice)
    requires s.Valid()
    modifies s.arr
    ensures r.Valid() && r.len == s.len + 1 && r.View() == old(s.View()) + [c]
    ensures r.arr != null && (r.arr == s.arr || fresh(r.arr))
    ensures s.View() == old(s.View())
  {
    if s.arr != null && s.len < s.arr.Length {
      s.arr[s.len] := c;
      r := Slice(s.arr, s.len + 1);
    } else {
      var a := new Chan[s.len + 1 + spare];
      for i := 0 to s.len
        invariant forall k | 0 <= k < i :: a[k] == s.arr[k]
        invariant s.arr != null ==> s.arr[..] == old(s.arr[..])
      {
        a[i] := s.arr[i];
      }
      a[s.len] := c;
      r := Slice(a, s.len + 1);
    }
  }

  /** append(s[:i], s[i+1:]...): the elements after i move down in the same array. */
  method RemoveAt(s: Slice, i: nat) returns (r: Slice)
    requires s.Valid() && i < s.len
    modifies s.arr
    ensures r == Slice(s.arr, s.len - 1) && r.Valid()
    ensures r.View() == Without(old(s.View()), i)
    ensures s.View() == r.View() + [old(s.View())[s.len - 1]]
  {
    ghost var before := s.arr[..];
    for j := i to s.len - 1
      invariant forall k | 0 <= k < i :: s.arr[k] == before[k]
      invariant forall k | i <= k < j :: s.arr[k] == before[k + 1]
      invariant forall k | j <= k < s.arr.Length :: s.arr[k] == before[k]
    {
      s.arr[j] := s.arr[j + 1];
    }
    r := Slice(s.arr, s.len - 1);
  }

  class Bus {
    var subscribers: map<string, Slice>

    /** The lists that the slices stand for. */
    ghost var lists: Table

    /** The backing arrays ever used, each for the list of one subject. */
    ghost var owner: map<array<Chan>, string>

    ghost function Arrays(): set<array<Chan>>
      reads this
    {
      owner.Keys
    }

    /** Slices show their lists, and lists of different subjects never share an array. */
    ghost predicate Valid()
      reads this, Arrays()
    {
      && subscribers.Keys == lists.Keys
      && (forall s | s in subscribers :: Shows(s))
    }

    ghost predicate Shows(s: string)
      reads this, Arrays()
      requires s in subscribers && s in lists
    {
      var subs := subscribers[s];
      && (subs.arr != null ==> subs.arr in owner && owner[subs.arr] == s)
      && subs.Valid() && subs.View() == lists[s]
    }

    constructor ()
      ensures Valid() && lists == map[] && Arrays() == {}
    {
      subscribers, lists, owner := map[], map[], map[];
    }

    /** b.subscribers[subject]: the nil slice for an unknown subject. */
    function Header(subject: string): (subs: Slice)
      reads this
    {
      if subject in subscribers then subscribers[subject] else Slice(null, 0)
    }

    method Subscribe(subject: string, c: Chan, spare: nat)
      requires Valid()
      modifies this, Arrays()
      ensures Valid() && lists == Add(old(lists), subject, c)
      ensures fresh(Arrays() - old(Arrays()))
    {
      var longer := Append(Header(subject), c, spare);
      ghost var others := subscribers - {subject};
      assert forall s | s in others :: others[s].arr != longer.arr && Shows(s);
      Store(subject, longer, ListOf(lists, subject) + [c]);
    }

    method Store(subject: string, subs: Slice, ghost list: seq<Chan>)
      requires subscribers.Keys == lists.Keys && subs.Valid() && subs.arr != null && subs.View() == list
      requires forall s | s in subscribers && s != subject :: Shows(s) && subscribers[s].arr != subs.arr
      modifies this
      ensures Valid() && lists == old(lists)[subject := list] && Arrays() == old(Arrays()) + {subs.arr}
    {
      subscribers, owner := subscribers[subject := subs], owner[subs.arr := subject];
      lists := lists[subject := list];
    }

    /** b.subscribers[subject] = append(subs[:i], subs[i+1:]...) */
    method RemoveIndex(subject: string, i: nat)
      requires Valid() && subject in subscribers && i < subscribers[subject].len
      modifies this, Header(subject).arr
      ensures Valid() && lists == old(lists)[subject := Without(old(lists)[subject], i)]
      ensures owner == old(owner)
      ensures old(Header(subject)).View()
           == lists[subject] + [old(lists)[subject][|old(lists)[subject]| - 1]]
    {
      var subs := subscribers[subject];
      assert subs.View() == lists[subject];
      var shorter := RemoveAt(subs, i);
      subscribers := subscribers[subject := shorter];
      lists := lists[subject := Without(lists[subject], i)];
    }

    method Unsubscribe(subject: string, c: Chan)
      requires Valid()
      modifies this, Arrays()
      ensures Valid() && lists == Remove(old(lists), subject, c)
      ensures Arrays() == old(Arrays())
      // A slice header read before the call now shows the shifted list and a stale last entry.
      ensures var list := ListOf(old(lists), subject);
              c in list ==> old(Header(subject)).View() == RemoveFirst(list, c) + [list[|list| - 1]]
    {
      var subs := Header(subject);
      ghost var list := ListOf(lists, subject);
      for i := 0 to subs.len
        invariant Valid() && lists == old(lists) && subscribers == old(subscribers)
        invariant subs.arr != null ==> subs.arr[..] == old(subs.arr[..])
        invariant c !in list[..i]
      {
        assert subs.arr[i] == list[i];
        if subs.arr[i] == c {
          RemoveFirstAt(list, c, i);
          RemoveIndex(subject, i);
          return;
        }
        assert list[..i + 1] == list[..i] + [list[i]];
      }
      assert list[..subs.len] == list;
    }

    method Perform(op: Op, spare: nat)
      requires Valid()
      modifies this, Arrays()
      ensures Valid() && lists == Subscriptions.Perform(old(lists), op)
      ensures fresh(Arrays() - old(Arrays()))
    {
      match op {
        case Subscribe(subject, c) => Subscribe(subject, c, spare);
        case Unsubscribe(subject, c) => Unsubscribe(subject, c);
      }
    }

    /** The part of publish under the read lock. */
    method Snapshot(subject: string) returns (snapshot: array<Chan>)
      requires Valid()
      ensures fresh(snapshot) && snapshot[..] == ListOf(lists, subject)
    {
      var subs := Header(subject);
      ghost var list := ListOf(lists, subject);
      snapshot := new Chan[subs.len];
      for i := 0 to subs.len
        invariant subs.arr != null ==> subs.arr[..] == old(subs.arr[..])
        invariant forall k | 0 <= k < i :: snapshot[k] == list[k]
      {
        snapshot[i] := subs.arr[i];
      }
    }
  }

  /**
   * publish by one goroutine: `cancels(i)` says that the select at the i-th channel takes the done
   * case. The interleaving with other goroutines is the subject of the module Broker.
   */
  method Publish(bus: Bus, subject: string, cancels: nat -> bool) returns (accepted: seq<Chan>, err: Option<Error>)
    requires bus.Valid()
    ensures accepted <= ListOf(bus.lists, subject)
    ensures forall i | 0 <= i < |accepted| :: !cancels(i)
    ensures err.None? <==> accepted == ListOf(bus.lists, subject)
    ensures err.Some? ==> cancels(|accepted|) && err == Some(CTX_ERR)
  {
    var snapshot := bus.Snapshot(subject);
    accepted := [];
    for i := 0 to snapshot.Length
      invariant accepted == snapshot[..i]
      invariant forall k | 0 <= k < i :: !cancels(k)
      invariant snapshot[..] == ListOf(bus.lists, subject)
    {
      if cancels(i) {
        return accepted, Some(CTX_ERR);
      }
      accepted := accepted + [snapshot[i]];
    }
    err := None;
  }

  // ---------------------------------------------------------------------------
  // Any history of calls
  // ---------------------------------------------------------------------------

  /** A subscribe or unsubscribe call (with the spare capacity of a growing append), or a snapshot. */
  datatype Call = Edit(op: Op, spare: nat) | Take(subject: string)

  function Edits(calls: seq<Call>): seq<Op> {
    if calls == [] then []
    else
      var before, last := Edits(calls[..|calls| - 1]), calls[|calls| - 1];
      if last.Edit? then before + [last.op] else before
  }

  /** What each snapshot has to show: the list at the moment it was taken. */
  function Taken(calls: seq<Call>): seq<seq<Chan>> {
    if calls == [] then []
    else
      var before, last := calls[..|calls| - 1], calls[|calls| - 1];
      Taken(before) + if last.Take? then [ListOf(Replay(Edits(before)), last.subject)] else []
  }

  ghost predicate Show(snapshots: seq<array<Chan>>, lists: seq<seq<Chan>>)
    reads snapshots
  {
    |snapshots| == |lists| && forall i | 0 <= i < |lists| :: snapshots[i][..] == lists[i]
  }

  /**
   * After any sequence of calls, the lists are what the sequence of edits makes them (by
   * Subscriptions.ReplayIsLive, the live channels in order), and every snapshot still shows the
   * list at the time it was taken.
   */
  method History(calls: seq<Call>) returns (bus: Bus, snapshots: seq<array<Chan>>)
    ensures fresh(bus) && fresh(bus.Arrays()) && bus.Valid()
    ensures forall a | a in snapshots :: fresh(a) && a !in bus.Arrays()
    ensures bus.lists == Replay(Edits(calls))
    ensures Show(snapshots, Taken(calls))
  {
    if calls == [] {
      bus := new Bus();
      return bus, [];
    }
    var last := calls[|calls| - 1];
    bus, snapshots := History(calls[..|calls| - 1]);
    match last {
      case Edit(op, spare) =>
        bus.Perform(op, spare);
      case Take(subject) =>
        var snapshot := bus.Snapshot(subject);
        snapshots := snapshots + [snapshot];
    }
  }

  /** The edits of a history are its Edit calls, in order. */
  lemma {:induction false} EditsConcat(a: seq<Call>, b: seq<Call>)
    ensures Edits(a + b) == Edits(a) + Edits(b)
    ensures |a| == 1 ==> Edits(a) == if a[0].Edit? then [a[0].op] else []
  {
    if |a| == 1 {
      assert a[..0] == [];
    }
    if b == [] {
      assert a + b == a;
    } else {
      EditsConcat(a, b[..|b| - 1]);
      assert (a + b)[..|a + b| - 1] == a + b[..|b| - 1];
    }
  }

  /** How many snapshots a history takes. */
  function Takes(calls: seq<Call>): nat {
    |Taken(calls)|
  }

  /**
   * Each snapshot call has its own entry in what the snapshots have to show, in order, and the entry
   * is the list that the edits before the call had made: the live channels, oldest first.
   */
  lemma {:induction false} TakenAt(calls: seq<Call>, i: nat)
    requires i < |calls|
    ensures Takes(calls[..i]) <= Takes(calls)
    ensures calls[i].Take? ==>
              && Takes(calls[..i + 1]) == Takes(calls[..i]) + 1 && Takes(calls[..i]) < Takes(calls)
              && Taken(calls)[Takes(calls[..i])] == ListOf(Replay(Edits(calls[..i])), calls[i].subject)
    ensures calls[i].Take? && OwnChannels(Edits(calls[..i])) ==>
              Taken(calls)[Takes(calls[..i])] == Live(Edits(calls[..i]), calls[i].subject)
    decreases |calls|
  {
    var before := calls[..|calls| - 1];
    assert calls[..i + 1][..i] == calls[..i];
    if i == |calls| - 1 {
      assert calls[..i + 1] == calls;
    } else {
      assert before[..i] == calls[..i] && before[..i + 1] == calls[..i + 1];
      TakenAt(before, i);
    }
    if OwnChannels(Edits(calls[..i])) && calls[i].Take? {
      ReplayIsLive(Edits(calls[..i]), calls[i].subject);
    }
  }
}
