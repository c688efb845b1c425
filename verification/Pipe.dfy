/** The handlers of pipe/pipe.go over a stack of retrying publishers. */
module Pipe {
  import opened Core
  import Retry

  /** What a handler did: its error, the next transport call, the items published, observer calls. */
  datatype Outcome<U> = Outcome(err: Option<Error>, next: nat, published: seq<U>, deadLetters: nat)

  function Wrapped(prefix: string, e: Error): Error {
    Error(prefix + e.text, e.nonRetryable)
  }

  /** Publishing the items in order until one fails. */
  function PublishAll<U>(layers: seq<Retry.Layer>, env: Retry.Env, k: nat, items: seq<U>): Outcome<U>
    decreases items
  {
    if items == [] then Outcome(None, k, [], 0)
    else
      var first := Retry.Published(layers, env, k);
      if first.err.Some? then Outcome(first.err, first.next, [], 1)
      else
        var rest := PublishAll(layers, env, first.next, items[1..]);
        rest.(published := [items[0]] + rest.published)
  }

  /** NewFlatMap's handler for a filter result and an expansion. */
  function FlatMapped<U>(layers: seq<Retry.Layer>, env: Retry.Env, k: nat,
                         accepted: bool, expansion: Result<seq<U>>): Outcome<U> {
    if !accepted then Outcome(None, k, [], 0)
    else
      match expansion
      case Err(e) => Outcome(Some(Wrapped("pipe flatmap: ", e)), k, [], 1)
      case Ok(items) => PublishAll(layers, env, k, items)
  }

  function Before<U>(done: seq<U>, o: Outcome<U>): Outcome<U> {
    o.(published := done + o.published)
  }

  method FlatMap<U>(layers: seq<Retry.Layer>, pub: Retry.Sink<U>, accepted: bool, expansion: Result<seq<U>>)
    returns (err: Option<Error>, deadLetters: nat)
    modifies pub
    ensures var o := FlatMapped(layers, pub.env, old(pub.calls), accepted, expansion);
            err == o.err && pub.calls == o.next && deadLetters == o.deadLetters
            && pub.sent == old(pub.sent) + o.published
  {
    deadLetters := 0;
    if !accepted {
      return None, deadLetters;
    }
    if expansion.Err? {
      deadLetters := 1;
      return Some(Wrapped("pipe flatmap: ", expansion.error)), deadLetters;
    }
    var items := expansion.value;
    for i := 0 to |items|
      invariant pub.sent == old(pub.sent) + items[..i]
      invariant deadLetters == 0
      invariant PublishAll(layers, pub.env, old(pub.calls), items)
             == Before(items[..i], PublishAll(layers, pub.env, pub.calls, items[i..]))
    {
      ghost var k := pub.calls;
      var failed, _ := Retry.Publish(layers, pub, items[i]);
      if failed.Some? {
        deadLetters := deadLetters + 1;
        return failed, deadLetters;
      }
      assert items[i..][1..] == items[i + 1..];
      ghost var rest := PublishAll(layers, pub.env, pub.calls, items[i + 1..]);
      assert items[..i] + ([items[i]] + rest.published) == items[..i + 1] + rest.published;
    }
    err := None;
  }

  lemma PublishSingleton<U>(layers: seq<Retry.Layer>, env: Retry.Env, k: nat, item: U)
    ensures var o, first := PublishAll(layers, env, k, [item]), Retry.Published(layers, env, k);
            o == Outcome(first.err, first.next, if first.err.None? then [item] else [],
                         if first.err.Some? then 1 else 0)
  {
    var first := Retry.Published(layers, env, k);
    assert [item][1..] == [];
    assert PublishAll(layers, env, first.next, [item][1..]) == Outcome(None, first.next, [], 0);
  }

  /** NewMap's handler. */
  method Map<U>(layers: seq<Retry.Layer>, pub: Retry.Sink<U>, accepted: bool, mapped: Result<U>)
    returns (err: Option<Error>, deadLetters: nat)
    modifies pub
    ensures var o := if accepted && mapped.Err?
                     then Outcome(Some(Wrapped("pipe map: ", mapped.error)), old(pub.calls), [], 1)
                     else FlatMapped(layers, pub.env, old(pub.calls), accepted,
                                     if mapped.Ok? then Ok([mapped.value]) else Err(mapped.error));
            err == o.err && pub.calls == o.next && deadLetters == o.deadLetters
            && pub.sent == old(pub.sent) + o.published
  {
    if !accepted {
      return None, 0;
    }
    if mapped.Err? {
      return Some(Wrapped("pipe map: ", mapped.error)), 1;
    }
    err, deadLetters := Forward(layers, pub, true, mapped.value);
  }

  /** New's handler: a flat map onto the payload alone. */
  method Forward<U>(layers: seq<Retry.Layer>, pub: Retry.Sink<U>, accepted: bool, payload: U)
    returns (err: Option<Error>, deadLetters: nat)
    modifies pub
    ensures var o := FlatMapped(layers, pub.env, old(pub.calls), accepted, Ok([payload]));
            err == o.err && pub.calls == o.next && deadLetters == o.deadLetters
            && pub.sent == old(pub.sent) + o.published
  {
    if !accepted {
      return None, 0;
    }
    PublishSingleton(layers, pub.env, pub.calls, payload);
    var failed, _ := Retry.Publish(layers, pub, payload);
    err := failed;
    deadLetters := if err.Some? then 1 else 0;
  }

  /** The items published are a prefix of the expansion, and all of it exactly when nil is returned. */
  lemma {:induction false} PublishesPrefix<U>(layers: seq<Retry.Layer>, env: Retry.Env, k: nat, items: seq<U>)
    ensures var o := PublishAll(layers, env, k, items);
            && o.published <= items
            && (o.err.None? <==> o.published == items)
            && (o.err.Some? <==> o.deadLetters == 1) && o.deadLetters <= 1
            && o.next >= k
    decreases items
  {
    if items == [] {
    } else {
      var first := Retry.Published(layers, env, k);
      if first.err.None? {
        PublishesPrefix(layers, env, first.next, items[1..]);
        var rest := PublishAll(layers, env, first.next, items[1..]);
        assert items == [items[0]] + items[1..];
        assert ([items[0]] + rest.published)[1..] == rest.published;
      }
    }
  }

  /** Nil means: filtered out, or expanded and published completely. Anything else is observed once. */
  lemma NilMeansComplete<U>(layers: seq<Retry.Layer>, env: Retry.Env, k: nat, accepted: bool, expansion: Result<seq<U>>)
    ensures var o := FlatMapped(layers, env, k, accepted, expansion);
            && (o.err.None? <==> !accepted || (expansion.Ok? && o.published == expansion.value))
            && (accepted && expansion.Ok? ==> o.published <= expansion.value)
            && (!accepted || expansion.Err? ==> o.published == [])
            && o.deadLetters == if o.err.Some? then 1 else 0
  {
    if accepted && expansion.Ok? {
      PublishesPrefix(layers, env, k, expansion.value);
    }
  }

  /**
   * Which error comes back: that of the call on the publisher for the first item that was not
   * published, unchanged, and no call follows it.
   */
  lemma {:induction false} PublishError<U>(layers: seq<Retry.Layer>, env: Retry.Env, k: nat, items: seq<U>)
    returns (last: nat)
    requires PublishAll(layers, env, k, items).err.Some?
    ensures var o, call := PublishAll(layers, env, k, items), Retry.Published(layers, env, last);
            o.err == call.err && o.next == call.next && k <= last && |o.published| < |items|
    decreases items
  {
    var first := Retry.Published(layers, env, k);
    if first.err.Some? {
      last := k;
    } else {
      last := PublishError(layers, env, first.next, items[1..]);
    }
  }

  /** Over a transport that is not retried: one call per item, up to and including the first failure. */
  lemma {:induction false} OneCallPerItem<U>(env: Retry.Env, k: nat, items: seq<U>)
    ensures var o := PublishAll([], env, k, items);
            && o.next == k + |o.published| + (if o.err.Some? then 1 else 0)
            && (forall i :: k <= i < k + |o.published| ==> env.answers(i).None?)
            && (o.err.Some? ==> o.err == env.answers(o.next - 1))
    decreases items
  {
    if items == [] {
    } else if env.answers(k).None? {
      OneCallPerItem(env, k + 1, items[1..]);
    }
  }

  /** A failed expansion comes back with a prefix, and retryable exactly if it was so before. */
  lemma ExpansionError<U>(layers: seq<Retry.Layer>, env: Retry.Env, k: nat, e: Error)
    ensures var o := FlatMapped<U>(layers, env, k, true, Err(e));
            && o.err.Some? && o.err.value.text == "pipe flatmap: " + e.text
            && (IsNonRetryable(o.err.value) <==> IsNonRetryable(e))
            && o.next == k
  {
  }
}
