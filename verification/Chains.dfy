/** Composition of middleware: middleware.go, and the options of pipe/option.go that collect it. */
module Chains {
  import opened Core

  type Middleware<!H> = H -> H

  /** Right-nested application: the first middleware is the outermost wrapper. */
  function Nest<H>(mws: seq<Middleware<H>>, next: H): H {
    if mws == [] then next else mws[0](Nest(mws[1..], next))
  }

  /** The handlers on the way from `next` outwards: each one is its middleware around the one behind it. */
  ghost predicate Wraps<H>(mws: seq<Middleware<H>>, next: H, hs: seq<H>) {
    && |hs| == |mws| + 1 && hs[|mws|] == next
    && forall i | 0 <= i < |mws| :: hs[i] == mws[i](hs[i + 1])
  }

  /** There is one such sequence, and its outermost handler is the nested one. */
  lemma {:induction false} NestWraps<H>(mws: seq<Middleware<H>>, next: H) returns (hs: seq<H>)
    ensures Wraps(mws, next, hs) && hs[0] == Nest(mws, next)
  {
    if mws == [] {
      hs := [next];
    } else {
      var inner := NestWraps(mws[1..], next);
      hs := [mws[0](inner[0])] + inner;
      forall i | 0 <= i < |mws| ensures hs[i] == mws[i](hs[i + 1]) {
        if i > 0 {
          assert inner[i - 1] == mws[1..][i - 1](inner[i]);
        }
      }
    }
  }

  /** The loop of goflux.Chain, from the last middleware to the first. */
  method Chain<H>(mws: seq<Middleware<H>>, next: H) returns (h: H)
    ensures h == Nest(mws, next)
    ensures exists hs :: Wraps(mws, next, hs) && h == hs[0]
  {
    h := next;
    for i := |mws| downto 0
      invariant h == Nest(mws[i..], next)
    {
      assert mws[i..][1..] == mws[i + 1..];
      h := mws[i](h);
    }
    assert mws[0..] == mws;
    ghost var hs := NestWraps(mws, next);
  }

  /** Chain(xs ++ ys) is Chain(xs) after Chain(ys). */
  lemma {:induction false} NestConcat<H>(xs: seq<Middleware<H>>, ys: seq<Middleware<H>>, next: H)
    ensures Nest(xs + ys, next) == Nest(xs, Nest(ys, next))
  {
    if xs == [] {
      assert xs + ys == ys;
    } else {
      assert (xs + ys)[1..] == xs[1..] + ys;
      NestConcat(xs[1..], ys, next);
    }
  }

  // ---------------------------------------------------------------------------
  // Options
  // ---------------------------------------------------------------------------

  /** The options of New, and in the same shape those of NewMap and NewFlatMap. */
  datatype PipeOption<!H, F, D> =
    | WithFilter(filter: F)
    | WithDeadLetter(observer: D)
    | WithMiddleware(mws: seq<Middleware<H>>)

  datatype Config<!H, F, D> =
    Config(filter: Option<F>, deadLetter: Option<D>, middleware: seq<Middleware<H>>)

  /** All middleware named by the options, in order. */
  function Collected<H, F, D>(opts: seq<PipeOption<H, F, D>>): seq<Middleware<H>> {
    if opts == [] then []
    else (if opts[0].WithMiddleware? then opts[0].mws else []) + Collected(opts[1..])
  }

  /** The option given last wins. */
  function LastFilter<H, F, D>(opts: seq<PipeOption<H, F, D>>): Option<F> {
    if opts == [] then None
    else if LastFilter(opts[1..]).Some? then LastFilter(opts[1..])
    else if opts[0].WithFilter? then Some(opts[0].filter) else None
  }

  function LastObserver<H, F, D>(opts: seq<PipeOption<H, F, D>>): Option<D> {
    if opts == [] then None
    else if LastObserver(opts[1..]).Some? then LastObserver(opts[1..])
    else if opts[0].WithDeadLetter? then Some(opts[0].observer) else None
  }

  function Or<X>(a: Option<X>, b: Option<X>): Option<X> {
    if a.Some? then a else b
  }

  /** The config once the remaining options have been applied to it. */
  function Finished<H, F, D>(cfg: Config<H, F, D>, opts: seq<PipeOption<H, F, D>>): Config<H, F, D> {
    Config(Or(LastFilter(opts), cfg.filter), Or(LastObserver(opts), cfg.deadLetter),
           cfg.middleware + Collected(opts))
  }

  function ApplyOption<H, F, D>(cfg: Config<H, F, D>, o: PipeOption<H, F, D>): Config<H, F, D> {
    match o
    case WithFilter(f) => cfg.(filter := Some(f))
    case WithDeadLetter(d) => cfg.(deadLetter := Some(d))
    case WithMiddleware(mws) => cfg.(middleware := cfg.middleware + mws)
  }

  lemma OneOption<H, F, D>(cfg: Config<H, F, D>, opts: seq<PipeOption<H, F, D>>)
    requires opts != []
    ensures Finished(ApplyOption(cfg, opts[0]), opts[1..]) == Finished(cfg, opts)
  {
    if opts[0].WithMiddleware? {
      var rest := Collected(opts[1..]);
      assert cfg.middleware + opts[0].mws + rest == cfg.middleware + (opts[0].mws + rest);
    } else {
      assert [] + Collected(opts[1..]) == Collected(opts[1..]);
    }
  }

  /** newConfig and newMapConfig: every option writes into the config or appends to its middleware. */
  method NewConfig<H, F, D>(opts: seq<PipeOption<H, F, D>>) returns (cfg: Config<H, F, D>)
    ensures cfg == Config(LastFilter(opts), LastObserver(opts), Collected(opts))
  {
    cfg := Config(None, None, []);
    assert [] + Collected(opts) == Collected(opts);
    for i := 0 to |opts|
      invariant Finished(cfg, opts[i..]) == Config(LastFilter(opts), LastObserver(opts), Collected(opts))
    {
      assert opts[i..][1..] == opts[i + 1..];
      OneOption(cfg, opts[i..]);
      cfg := ApplyOption(cfg, opts[i]);
    }
    assert Finished(cfg, opts[|opts|..]) == cfg;
  }

  /** applyMiddleware */
  method ApplyMiddleware<H>(handler: H, mws: seq<Middleware<H>>) returns (h: H)
    ensures h == Nest(mws, handler)
    ensures exists hs :: Wraps(mws, handler, hs) && h == hs[0]
  {
    if |mws| == 0 {
      assert Wraps(mws, handler, [handler]);
      return handler;
    }
    h := Chain(mws, handler);
  }

  /**
   * The frame of New, NewMap and NewFlatMap: `core` makes the unwrapped handler from the filter and
   * the observer.
   */
  method NewPipe<H, F, D>(opts: seq<PipeOption<H, F, D>>, core: (Option<F>, Option<D>) -> H) returns (h: H)
    ensures h == Nest(Collected(opts), core(LastFilter(opts), LastObserver(opts)))
    ensures exists hs :: Wraps(Collected(opts), core(LastFilter(opts), LastObserver(opts)), hs) && h == hs[0]
  {
    var cfg := NewConfig(opts);
    h := ApplyMiddleware(core(cfg.filter, cfg.deadLetter), cfg.middleware);
  }

  lemma {:induction false} CollectedConcat<H, F, D>(a: seq<PipeOption<H, F, D>>, b: seq<PipeOption<H, F, D>>)
    ensures Collected(a + b) == Collected(a) + Collected(b)
    ensures LastFilter(a + b) == if LastFilter(b).Some? then LastFilter(b) else LastFilter(a)
    ensures LastObserver(a + b) == if LastObserver(b).Some? then LastObserver(b) else LastObserver(a)
  {
    if a == [] {
      assert a + b == b;
    } else {
      assert (a + b)[1..] == a[1..] + b;
      CollectedConcat(a[1..], b);
    }
  }

  /** The middleware of each option stands between that of the options before and after it. */
  lemma CollectedAt<H, F, D>(opts: seq<PipeOption<H, F, D>>, i: nat)
    requires i < |opts|
    ensures Collected(opts)
         == Collected(opts[..i]) + (if opts[i].WithMiddleware? then opts[i].mws else []) + Collected(opts[i + 1..])
  {
    CollectedConcat(opts[..i], opts[i..]);
    assert opts == opts[..i] + opts[i..] && opts[i..][1..] == opts[i + 1..];
  }

  /** The filter is that of the last WithFilter option, and there is none without such an option. */
  lemma {:induction false} LastFilterWins<H, F, D>(opts: seq<PipeOption<H, F, D>>, i: nat)
    requires i <= |opts| && (i > 0 ==> opts[i - 1].WithFilter?)
    requires forall j | i <= j < |opts| :: !opts[j].WithFilter?
    ensures LastFilter(opts) == if i == 0 then None else Some(opts[i - 1].filter)
    decreases |opts|
  {
    if opts == [] {
    } else {
      LastFilterWins(opts[1..], if i == 0 then 0 else i - 1);
    }
  }

  /** The same for the dead-letter observer. */
  lemma {:induction false} LastObserverWins<H, F, D>(opts: seq<PipeOption<H, F, D>>, i: nat)
    requires i <= |opts| && (i > 0 ==> opts[i - 1].WithDeadLetter?)
    requires forall j | i <= j < |opts| :: !opts[j].WithDeadLetter?
    ensures LastObserver(opts) == if i == 0 then None else Some(opts[i - 1].observer)
    decreases |opts|
  {
    if opts == [] {
    } else {
      LastObserverWins(opts[1..], if i == 0 then 0 else i - 1);
    }
  }

  function Flatten<X>(lists: seq<seq<X>>): seq<X> {
    if lists == [] then [] else lists[0] + Flatten(lists[1..])
  }

  function AsOptions<H, F, D>(lists: seq<seq<Middleware<H>>>): seq<PipeOption<H, F, D>> {
    if lists == [] then [] else [WithMiddleware(lists[0])] + AsOptions(lists[1..])
  }

  lemma {:induction false} CollectedLists<H, F, D>(lists: seq<seq<Middleware<H>>>)
    ensures var opts: seq<PipeOption<H, F, D>> := AsOptions(lists);
            Collected(opts) == Flatten(lists) && LastFilter(opts) == None && LastObserver(opts) == None
  {
    if lists == [] {
    } else {
      CollectedLists<H, F, D>(lists[1..]);
      var opts: seq<PipeOption<H, F, D>> := AsOptions(lists);
      assert opts[1..] == AsOptions(lists[1..]);
    }
  }

  /**
   * However middleware is split over WithMiddleware options, between any other options before and
   * after, the pipe is the one that a single option with the flattened list gives; an empty list
   * gives the bare handler.
   */
  lemma SplitDoesNotMatter<H, F, D>(before: seq<PipeOption<H, F, D>>, lists: seq<seq<Middleware<H>>>,
                                    after: seq<PipeOption<H, F, D>>, core: (Option<F>, Option<D>) -> H)
    ensures var many := before + AsOptions(lists) + after;
            var one := before + [WithMiddleware(Flatten(lists))] + after;
            && Collected(many) == Collected(one)
            && Nest(Collected(many), core(LastFilter(many), LastObserver(many)))
               == Nest(Collected(one), core(LastFilter(one), LastObserver(one)))
            && Nest(Collected(many), core(LastFilter(many), LastObserver(many)))
               == Nest(Collected(before), Nest(Flatten(lists),
                    Nest(Collected(after), core(LastFilter(many), LastObserver(many)))))
  {
    var split: seq<PipeOption<H, F, D>> := AsOptions(lists);
    var single: seq<PipeOption<H, F, D>> := [WithMiddleware(Flatten(lists))];
    var many, one := before + split + after, before + single + after;
    CollectedLists<H, F, D>(lists);
    assert single[1..] == [] && Collected(single) == Flatten(lists) + Collected<H, F, D>([]);
    assert Flatten(lists) + [] == Flatten(lists);
    CollectedConcat(before, split);
    CollectedConcat(before + split, after);
    CollectedConcat(before, single);
    CollectedConcat(before + single, after);
    var handler := core(LastFilter(many), LastObserver(many));
    NestConcat(Collected(before) + Flatten(lists), Collected(after), handler);
    NestConcat(Collected(before), Flatten(lists), Nest(Collected(after), handler));
  }
}
