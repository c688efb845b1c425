/** RetryPublisher of retrypublisher.go, stacked to any depth over a transport's publisher. */
module Retry {
  import opened Core

  /** One RetryPublisher: the configured bound and the retryable predicate. */
  datatype Layer = Layer(maxAttempts: int, retryable: Error -> bool)

  function Limit(l: Layer): (n: nat)
    ensures n >= 1
  {
    if l.maxAttempts < 1 then 1 else l.maxAttempts
  }

  /**
   * What the surroundings decide: the answer to the k-th call on the transport's publisher, and
   * whether the context ends in the wait that the layer at some depth starts after that call.
   */
  datatype Env = Env(answers: nat -> Option<Error>, cancels: (nat, nat) -> bool)

  /** The innermost publisher: counts its calls and keeps what it published. */
  class Sink<U> {
    const env: Env
    var calls: nat
    var sent: seq<U>

    constructor (env: Env)
      ensures this.env == env && calls == 0 && sent == []
    {
      this.env := env;
      calls, sent := 0, [];
    }

    method Publish(v: U) returns (err: Option<Error>)
      modifies this
      ensures calls == old(calls) + 1 && err == env.answers(old(calls))
      ensures sent == if err.None? then old(sent) + [v] else old(sent)
    {
      err := env.answers(calls);
      calls := calls + 1;
      if err.None? {
        sent := sent + [v];
      }
    }
  }

  /** The error returned, the number of the next transport call, the arguments given to backoff. */
  datatype Outcome = Outcome(err: Option<Error>, next: nat, backoffs: seq<nat>)

  /** Publish through the layers, the outermost first, starting with transport call k. */
  function Attempts(layers: seq<Layer>, env: Env, k: nat, attempt: nat): (o: Outcome)
    requires layers != [] ==> attempt < Limit(layers[0])
    ensures o.next > k
    decreases |layers|, if layers == [] then 0 else Limit(layers[0]) - attempt
  {
    if layers == [] then Outcome(env.answers(k), k + 1, [])
    else
      var inner := Attempts(layers[1..], env, k, 0);
      if inner.err.None? || attempt == Limit(layers[0]) - 1 || !layers[0].retryable(inner.err.value) then
        Outcome(inner.err, inner.next, [])
      else if env.cancels(|layers|, inner.next - 1) then
        Outcome(Some(CTX_ERR), inner.next, [attempt])
      else
        var rest := Attempts(layers, env, inner.next, attempt + 1);
        Outcome(rest.err, rest.next, [attempt] + rest.backoffs)
  }

  function Published(layers: seq<Layer>, env: Env, k: nat): Outcome {
    Attempts(layers, env, k, 0)
  }

  function After(backoffs: seq<nat>, o: Outcome): Outcome {
    o.(backoffs := backoffs + o.backoffs)
  }

  /** One round of the loop: either it ends the loop, or it moves on to the next attempt. */
  lemma Round(layers: seq<Layer>, env: Env, k: nat, attempt: nat, backoffs: seq<nat>)
    requires layers != [] && attempt < Limit(layers[0])
    ensures var inner := Attempts(layers[1..], env, k, 0);
            After(backoffs, Attempts(layers, env, k, attempt)) ==
            if inner.err.None? || attempt == Limit(layers[0]) - 1 || !layers[0].retryable(inner.err.value) then
              Outcome(inner.err, inner.next, backoffs)
            else if env.cancels(|layers|, inner.next - 1) then
              Outcome(Some(CTX_ERR), inner.next, backoffs + [attempt])
            else
              After(backoffs + [attempt], Attempts(layers, env, inner.next, attempt + 1))
  {
    var inner := Attempts(layers[1..], env, k, 0);
    assert backoffs + [] == backoffs;
    if attempt < Limit(layers[0]) - 1 {
      var rest := Attempts(layers, env, inner.next, attempt + 1);
      assert backoffs + ([attempt] + rest.backoffs) == backoffs + [attempt] + rest.backoffs;
    }
  }

  /** retryPublisher.Publish; its inner publisher is the rest of the stack. */
  method Publish<U>(layers: seq<Layer>, sink: Sink<U>, v: U) returns (err: Option<Error>, backoffs: seq<nat>)
    modifies sink
    ensures Outcome(err, sink.calls, backoffs) == Published(layers, sink.env, old(sink.calls))
    ensures sink.sent == if err.None? then old(sink.sent) + [v] else old(sink.sent)
    decreases |layers|
  {
    backoffs := [];
    if layers == [] {
      err := sink.Publish(v);
      return;
    }
    var limit := Limit(layers[0]);
    var attempt := 0;
    while true
      invariant attempt < limit && sink.sent == old(sink.sent)
      invariant Published(layers, sink.env, old(sink.calls))
             == After(backoffs, Attempts(layers, sink.env, sink.calls, attempt))
      decreases limit - attempt
    {
      Round(layers, sink.env, sink.calls, attempt, backoffs);
      var inner: seq<nat>;
      err, inner := Publish(layers[1..], sink, v);
      if err.None? {
        return;
      }
      if attempt == limit - 1 {
        break;
      }
      if !layers[0].retryable(err.value) {
        break;
      }
      backoffs := backoffs + [attempt];
      if sink.env.cancels(|layers|, sink.calls - 1) {
        return Some(CTX_ERR), backoffs;
      }
      attempt := attempt + 1;
    }
  }

  // ---------------------------------------------------------------------------
  // What the loop guarantees
  // ---------------------------------------------------------------------------

  /** The product of the bounds. */
  function Product(layers: seq<Layer>): nat {
    if layers == [] then 1 else Limit(layers[0]) * Product(layers[1..])
  }

  /** The calls that a stack may still make from an attempt on, added up attempt by attempt. */
  function Budget(layers: seq<Layer>, attempt: nat): nat
    requires layers != [] ==> attempt < Limit(layers[0])
    decreases |layers|, if layers == [] then 0 else Limit(layers[0]) - attempt
  {
    if layers == [] then 1
    else Budget(layers[1..], 0) + if attempt + 1 < Limit(layers[0]) then Budget(layers, attempt + 1) else 0
  }

  lemma {:induction false} BudgetIsMultiple(layers: seq<Layer>, attempt: nat)
    requires layers != [] && attempt < Limit(layers[0])
    ensures Budget(layers, attempt) == (Limit(layers[0]) - attempt) * Budget(layers[1..], 0)
    decreases Limit(layers[0]) - attempt
  {
    var left, p := Limit(layers[0]) - attempt, Budget(layers[1..], 0);
    assert left * p == (left - 1) * p + p;
    if attempt + 1 == Limit(layers[0]) {
    } else {
      BudgetIsMultiple(layers, attempt + 1);
    }
  }

  lemma {:induction false} BudgetIsProduct(layers: seq<Layer>)
    ensures Budget(layers, 0) == Product(layers)
  {
    if layers == [] {
    } else {
      BudgetIsProduct(layers[1..]);
      BudgetIsMultiple(layers, 0);
    }
  }

  lemma {:induction false} WithinBudget(layers: seq<Layer>, env: Env, k: nat, attempt: nat)
    requires layers != [] ==> attempt < Limit(layers[0])
    ensures Attempts(layers, env, k, attempt).next - k <= Budget(layers, attempt)
    decreases |layers|, if layers == [] then 0 else Limit(layers[0]) - attempt
  {
    if layers == [] {
    } else {
      WithinBudget(layers[1..], env, k, 0);
      var inner := Attempts(layers[1..], env, k, 0);
      if attempt + 1 < Limit(layers[0]) {
        WithinBudget(layers, env, inner.next, attempt + 1);
      }
    }
  }

  /** A retried error answers every call and no context ends. */
  ghost predicate KeepsFailing(layers: seq<Layer>, env: Env, e: Error) {
    && (forall i :: env.answers(i) == Some(e))
    && (forall d, i :: !env.cancels(d, i))
    && (forall i :: 0 <= i < |layers| ==> layers[i].retryable(e))
  }

  lemma {:induction false} BudgetSpent(layers: seq<Layer>, env: Env, k: nat, attempt: nat, e: Error)
    requires layers != [] ==> attempt < Limit(layers[0])
    requires KeepsFailing(layers, env, e)
    ensures Attempts(layers, env, k, attempt).err == Some(e)
    ensures Attempts(layers, env, k, attempt).next - k == Budget(layers, attempt)
    decreases |layers|, if layers == [] then 0 else Limit(layers[0]) - attempt
  {
    if layers == [] {
    } else {
      BudgetSpent(layers[1..], env, k, 0, e);
      var inner := Attempts(layers[1..], env, k, 0);
      if attempt + 1 < Limit(layers[0]) {
        BudgetSpent(layers, env, inner.next, attempt + 1, e);
      }
    }
  }

  /** A stack makes between one and the product of the bounds many calls, and can make them all. */
  lemma CallsBounded(layers: seq<Layer>, env: Env, k: nat)
    ensures 1 <= Published(layers, env, k).next - k <= Product(layers)
    ensures forall e :: KeepsFailing(layers, env, e) ==> Published(layers, env, k).next - k == Product(layers)
  {
    WithinBudget(layers, env, k, 0);
    BudgetIsProduct(layers);
    forall e | KeepsFailing(layers, env, e) ensures Published(layers, env, k).next - k == Product(layers) {
      BudgetSpent(layers, env, k, 0, e);
    }
  }

  /** Against an error that keeps coming back one RetryPublisher makes maxAttempts calls, at least one. */
  lemma AttemptsMade(l: Layer, env: Env, k: nat, e: Error)
    requires KeepsFailing([l], env, e)
    ensures Published([l], env, k).next - k == if l.maxAttempts >= 1 then l.maxAttempts else 1
    ensures Published([l], env, k).err == Some(e)
  {
    BudgetSpent([l], env, k, 0, e);
    BudgetIsProduct([l]);
    assert Product([l]) == Limit(l) * Product([]) && Product([]) == 1;
  }

  /** Calls k to n-1 were made: all but the last one failed, and err is nil exactly if that one succeeded. */
  ghost predicate LastDecides(env: Env, k: nat, n: nat, err: Option<Error>) {
    && k < n && (err.None? <==> env.answers(n - 1).None?)
    && forall i :: k <= i < n - 1 ==> env.answers(i).Some?
  }

  lemma LastDecidesJoin(env: Env, k: nat, mid: nat, n: nat, failed: Option<Error>, err: Option<Error>)
    requires LastDecides(env, k, mid, failed) && failed.Some? && LastDecides(env, mid, n, err)
    ensures LastDecides(env, k, n, err)
  {
  }

  /** Nil is returned exactly when the last call succeeded; every earlier call had failed. */
  lemma {:induction false} SucceedsOnce(layers: seq<Layer>, env: Env, k: nat, attempt: nat)
    requires layers != [] ==> attempt < Limit(layers[0])
    ensures LastDecides(env, k, Attempts(layers, env, k, attempt).next, Attempts(layers, env, k, attempt).err)
    decreases |layers|, if layers == [] then 0 else Limit(layers[0]) - attempt
  {
    if layers == [] {
    } else {
      SucceedsOnce(layers[1..], env, k, 0);
      var inner := Attempts(layers[1..], env, k, 0);
      if inner.err.Some? && attempt < Limit(layers[0]) - 1 && layers[0].retryable(inner.err.value)
         && !env.cancels(|layers|, inner.next - 1) {
        SucceedsOnce(layers, env, inner.next, attempt + 1);
        var rest := Attempts(layers, env, inner.next, attempt + 1);
        LastDecidesJoin(env, k, inner.next, rest.next, inner.err, rest.err);
      }
    }
  }

  /** backoff is asked for 0, 1, 2, ... in this order. */
  lemma {:induction false} BackoffsCountUp(layers: seq<Layer>, env: Env, k: nat, attempt: nat)
    requires layers != [] && attempt < Limit(layers[0])
    ensures var o := Attempts(layers, env, k, attempt);
            && |o.backoffs| <= Limit(layers[0]) - 1 - attempt
            && (forall i :: 0 <= i < |o.backoffs| ==> o.backoffs[i] == attempt + i)
    decreases Limit(layers[0]) - attempt
  {
    var inner := Attempts(layers[1..], env, k, 0);
    if attempt == Limit(layers[0]) - 1 {
    } else {
      BackoffsCountUp(layers, env, inner.next, attempt + 1);
    }
  }

  /** After the n-th call of one RetryPublisher the context ends while it waits for the next attempt. */
  predicate CutShort(l: Layer, env: Env, k: nat, n: nat)
    requires n > 0
  {
    var last := env.answers(k + n - 1);
    last.Some? && n < Limit(l) && l.retryable(last.value) && env.cancels(1, k + n - 1)
  }

  /** backoff is asked once between any two calls, and once more before a wait that is cut short. */
  lemma {:induction false} BackoffsMatchCalls(l: Layer, env: Env, k: nat, attempt: nat)
    requires attempt < Limit(l)
    ensures var o := Attempts([l], env, k, attempt);
            && o.next > k
            && |o.backoffs| == o.next - k
               - if CutShort(l.(maxAttempts := Limit(l) - attempt), env, k, o.next - k) then 0 else 1
    decreases Limit(l) - attempt
  {
    assert [l][1..] == [];
    if env.answers(k).Some? && attempt < Limit(l) - 1 && l.retryable(env.answers(k).value) && !env.cancels(1, k) {
      BackoffsMatchCalls(l, env, k + 1, attempt + 1);
    }
  }

  /**
   * An account of one RetryPublisher over a plain publisher that does not follow the loop: n calls
   * were made; all but the last failed, were retryable and were waited for; the last one succeeded,
   * or failed for good, or its wait was cut short by the context.
   */
  ghost predicate Account(l: Layer, env: Env, k: nat, n: nat, err: Option<Error>) {
    && 1 <= n <= Limit(l)
    && (forall i :: k <= i < k + n - 1 ==>
         env.answers(i).Some? && l.retryable(env.answers(i).value) && !env.cancels(1, i))
    && var last := env.answers(k + n - 1);
       if last.None? then err == None
       else if n == Limit(l) || !l.retryable(last.value) then err == last
       else env.cancels(1, k + n - 1) && err == Some(CTX_ERR)
  }

  lemma {:induction false} AccountHolds(l: Layer, env: Env, k: nat, attempt: nat)
    requires attempt < Limit(l)
    ensures var o := Attempts([l], env, k, attempt);
            && o.next - k <= Limit(l) - attempt
            && Account(l.(maxAttempts := Limit(l) - attempt), env, k, o.next - k, o.err)
    decreases Limit(l) - attempt
  {
    assert [l][1..] == [];
    if env.answers(k).Some? && attempt < Limit(l) - 1 && l.retryable(env.answers(k).value) && !env.cancels(1, k) {
      AccountHolds(l, env, k + 1, attempt + 1);
    }
  }

  /** The loop's result is the one and only result that fits the account. */
  lemma LoopMeetsAccount(l: Layer, env: Env, k: nat, n: nat, err: Option<Error>)
    ensures Account(l, env, k, n, err) <==>
            (Published([l], env, k).next == k + n && Published([l], env, k).err == err)
  {
    var o := Published([l], env, k);
    AccountHolds(l, env, k, 0);
    assert Account(l, env, k, o.next - k, o.err);
  }
}
