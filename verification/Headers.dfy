/**
 * Message headers and message IDs over NATS: header.go, what the publisher writes into the wire
 * header, what the subscriber reads from it, and chains of subscriber, pipe.New and publisher.
 */
module Headers {
  import opened Core

  /** Keys are case-sensitive; a nil map is None where the difference is visible. */
  type Values = map<string, seq<string>>
  type Header = Option<Values>

  const PREFIX := "X-Goflux-"
  const MESSAGE_ID := "X-Message-ID"

  function Get(h: Values, key: string): string {
    if key in h && h[key] != [] then h[key][0] else ""
  }

  function Lookup(h: Values, key: string): seq<string> {
    if key in h then h[key] else []
  }

  /** goflux.Header and nats.Header: the same map of value lists with the same methods. */
  class HeaderMap {
    var entries: Values

    constructor ()
      ensures entries == map[]
    {
      entries := map[];
    }

    method Set(key: string, value: string)
      modifies this
      ensures entries == old(entries)[key := [value]]
    {
      entries := entries[key := [value]];
    }

    method Add(key: string, value: string)
      modifies this
      ensures entries == old(entries)[key := Lookup(old(entries), key) + [value]]
    {
      entries := entries[key := Lookup(entries, key) + [value]];
    }

    method Del(key: string)
      modifies this
      ensures entries == old(entries) - {key}
    {
      entries := entries - {key};
    }
  }

  /** A call of one of the three editing methods. */
  datatype Edit = Set(key: string, value: string) | Add(key: string, value: string) | Del(key: string)

  function Edited(h: Values, e: Edit): Values {
    match e
    case Set(key, value) => h[key := [value]]
    case Add(key, value) => h[key := Lookup(h, key) + [value]]
    case Del(key) => h - {key}
  }

  function Replay(h: Values, edits: seq<Edit>): Values {
    if edits == [] then h else Edited(Replay(h, edits[..|edits| - 1]), edits[|edits| - 1])
  }

  method Perform(h: HeaderMap, edits: seq<Edit>)
    modifies h
    ensures h.entries == Replay(old(h.entries), edits)
  {
    for i := 0 to |edits|
      invariant h.entries == Replay(old(h.entries), edits[..i])
    {
      assert edits[..i + 1][..i] == edits[..i];
      match edits[i] {
        case Set(key, value) => h.Set(key, value);
        case Add(key, value) => h.Add(key, value);
        case Del(key) => h.Del(key);
      }
    }
    assert edits[..|edits|] == edits;
  }

  /** The edit discards the values that its key had. */
  predicate Resets(e: Edit, key: string) {
    e.key == key && !e.Add?
  }

  ghost predicate IsReset(edits: seq<Edit>, key: string) {
    exists e :: e in edits && Resets(e, key)
  }

  lemma ResetsPush(edits: seq<Edit>, e: Edit, key: string)
    ensures IsReset(edits + [e], key) <==> IsReset(edits, key) || Resets(e, key)
  {
    if Resets(e, key) {
      assert e in edits + [e];
    }
    if f :| f in edits && Resets(f, key) {
      assert f in edits + [e];
    }
  }

  /** The values that the edits from the last reset of the key on give to it, in order. */
  function Given(edits: seq<Edit>, key: string): seq<string> {
    if edits == [] then []
    else
      var later := Given(edits[1..], key);
      if edits[0].key == key && !edits[0].Del? && (forall e | e in edits[1..] :: !Resets(e, key))
      then [edits[0].value] + later
      else later
  }

  lemma {:induction false} GivenPush(edits: seq<Edit>, e: Edit, key: string)
    ensures Given(edits + [e], key)
         == if e.key != key then Given(edits, key)
            else (if e.Add? then Given(edits, key) else []) + (if e.Del? then [] else [e.value])
  {
    if edits == [] {
      assert edits + [e] == [e] && [e][1..] == [];
    } else {
      assert (edits + [e])[1..] == edits[1..] + [e];
      GivenPush(edits[1..], e, key);
      assert e in edits[1..] + [e];
    }
  }

  /** The values of a key after some edits: those given since the last reset, or added to the first ones. */
  ghost function Left(h: Values, edits: seq<Edit>, key: string): seq<string> {
    (if IsReset(edits, key) then [] else Lookup(h, key)) + Given(edits, key)
  }

  lemma LeftPush(h: Values, edits: seq<Edit>, e: Edit, key: string)
    ensures Left(h, edits + [e], key)
         == if e.key != key then Left(h, edits, key)
            else (if e.Add? then Left(h, edits, key) else []) + (if e.Del? then [] else [e.value])
  {
    ResetsPush(edits, e, key);
    GivenPush(edits, e, key);
  }

  lemma {:induction false} ValuesLeft(h: Values, edits: seq<Edit>, key: string)
    ensures Lookup(Replay(h, edits), key) == Left(h, edits, key)
  {
    if edits == [] {
    } else {
      var before, e := edits[..|edits| - 1], edits[|edits| - 1];
      ValuesLeft(h, before, key);
      assert edits == before + [e];
      LeftPush(h, before, e, key);
    }
  }

  lemma {:induction false} PresenceLeft(h: Values, edits: seq<Edit>, key: string)
    ensures key in Replay(h, edits) <==> Given(edits, key) != [] || (!IsReset(edits, key) && key in h)
  {
    if edits == [] {
    } else {
      var before, e := edits[..|edits| - 1], edits[|edits| - 1];
      PresenceLeft(h, before, key);
      assert edits == before + [e];
      ResetsPush(before, e, key);
      GivenPush(before, e, key);
    }
  }

  /**
   * After any sequence of Set, Add and Del calls a key has the values given to it since it was last
   * set or deleted, after those it started with if it never was; edits of other keys do not show. Get
   * returns the first of them, and a key is absent exactly if it was deleted and not given any since,
   * or was absent and never given any.
   */
  lemma EditsLeave(h: Values, edits: seq<Edit>, key: string)
    ensures var reset := IsReset(edits, key);
            var values := (if reset then [] else Lookup(h, key)) + Given(edits, key);
            && Lookup(Replay(h, edits), key) == values
            && Get(Replay(h, edits), key) == (if values == [] then "" else values[0])
            && (key in Replay(h, edits) <==> Given(edits, key) != [] || (!reset && key in h))
  {
    ValuesLeft(h, edits, key);
    PresenceLeft(h, edits, key);
  }

  /**
   * Header.Clone, with the value slices as arrays: no array of the copy is shared with the original
   * or between two keys, so writing through either side never shows on the other.
   */
  method Clone(h: Option<map<string, array<string>>>) returns (out: Option<map<string, array<string>>>)
    ensures h.None? <==> out.None?
    ensures h.Some? ==>
              && out.value.Keys == h.value.Keys
              && (forall k | k in h.value :: fresh(out.value[k]) && out.value[k][..] == h.value[k][..])
              && (forall k, k' | k in out.value && k' in out.value && k != k' :: out.value[k] != out.value[k'])
  {
    if h.None? {
      return None;
    }
    var copy: map<string, array<string>> := map[];
    var todo := h.value.Keys;
    while todo != {}
      invariant todo <= h.value.Keys && copy.Keys == h.value.Keys - todo
      invariant forall k | k in copy :: fresh(copy[k]) && copy[k][..] == h.value[k][..]
      invariant forall k, k' | k in copy && k' in copy && k != k' :: copy[k] != copy[k']
      invariant forall k | k in h.value :: h.value[k][..] == old(h.value[k][..])
    {
      var k :| k in todo;
      var vs := h.value[k];
      var a := new string[vs.Length](i requires 0 <= i < vs.Length reads vs => vs[i]);
      assert a[..] == vs[..];
      copy := copy[k := a];
      todo := todo - {k};
    }
    out := Some(copy);
  }

  // ---------------------------------------------------------------------------
  // The publisher
  // ---------------------------------------------------------------------------

  predicate HasPrefix(key: string) {
    PREFIX <= key
  }

  function Strip(key: string): string
    requires HasPrefix(key)
  {
    key[|PREFIX|..]
  }

  /** What the propagator leaves in the empty wire header. */
  function Traced(traces: seq<(string, string)>): Values {
    if traces == [] then map[]
    else
      var last := traces[|traces| - 1];
      Traced(traces[..|traces| - 1])[last.0 := [last.1]]
  }

  function WithId(w: Values, id: string): Values {
    if id == "" then w else w[MESSAGE_ID := [id]]
  }

  /** The values that the header's keys in `done` add under a wire key. */
  function Added(h: Values, done: set<string>, key: string): seq<string> {
    if HasPrefix(key) && Strip(key) in done && Strip(key) in h then h[Strip(key)] else []
  }

  /** The wire keys that the header's keys in `done` write to. */
  function Written(h: Values, done: set<string>): set<string> {
    set k | k in done && k in h && h[k] != [] :: PREFIX + k
  }

  function Merged(w: Values, h: Values, done: set<string>): Values {
    map key | key in w.Keys + Written(h, done) :: Lookup(w, key) + Added(h, done, key)
  }

  /** The wire header of a published message. */
  function WireOf(traces: seq<(string, string)>, id: string, h: Header): Values {
    var base := WithId(Traced(traces), id);
    if h.None? then base else Merged(base, h.value, h.value.Keys)
  }

  lemma StripPrefix(k: string)
    ensures HasPrefix(PREFIX + k) && Strip(PREFIX + k) == k
  {
  }

  lemma PrefixStrip(key: string)
    requires HasPrefix(key)
    ensures PREFIX + Strip(key) == key
  {
  }

  lemma IdIsUnprefixed()
    ensures !HasPrefix(MESSAGE_ID)
  {
    assert PREFIX[2] == 'G' && MESSAGE_ID[2] == 'M';
  }

  lemma WrittenAt(h: Values, done: set<string>, key: string)
    ensures key in Written(h, done) <==> Added(h, done, key) != []
  {
    if key in Written(h, done) {
      var k :| k in done && k in h && h[k] != [] && PREFIX + k == key;
      StripPrefix(k);
    }
    if Added(h, done, key) != [] {
      PrefixStrip(key);
    }
  }

  lemma MergedAt(w: Values, h: Values, done: set<string>, key: string)
    ensures key in Merged(w, h, done) <==> key in w || Added(h, done, key) != []
    ensures Lookup(Merged(w, h, done), key) == Lookup(w, key) + Added(h, done, key)
  {
    WrittenAt(h, done, key);
  }

  /** One more header key adds to its own wire key only. */
  lemma AddedOne(h: Values, done: set<string>, k: string, key: string)
    requires k in h && k !in done
    ensures Added(h, done + {k}, key) == if key == PREFIX + k then h[k] else Added(h, done, key)
    ensures key == PREFIX + k ==> Added(h, done, key) == []
  {
    StripPrefix(k);
    if HasPrefix(key) {
      PrefixStrip(key);
    }
  }

  /** w with some values appended under a key, if there are any. */
  function Appended(w: Values, key: string, vs: seq<string>): Values {
    if vs == [] then w else w[key := Lookup(w, key) + vs]
  }

  lemma AppendOne(w: Values, key: string, vs: seq<string>, v: string)
    ensures var a := Appended(w, key, vs); a[key := Lookup(a, key) + [v]] == Appended(w, key, vs + [v])
  {
    var a := Appended(w, key, vs);
    assert Lookup(w, key) + vs + [v] == Lookup(w, key) + (vs + [v]);
    assert Lookup(a, key) + [v] == Lookup(w, key) + (vs + [v]);
    assert a[key := Lookup(w, key) + (vs + [v])] == w[key := Lookup(w, key) + (vs + [v])];
  }

  /** Maps with the same keys and the same values are equal. */
  lemma SameValues(a: Values, b: Values)
    requires forall key :: (key in a <==> key in b) && Lookup(a, key) == Lookup(b, key)
    ensures a == b
  {
    forall key | key in a ensures key in b && a[key] == b[key] {
      assert Lookup(a, key) == Lookup(b, key);
    }
  }

  lemma MergeOneAt(w: Values, h: Values, done: set<string>, k: string, key: string)
    requires k in h && k !in done
    ensures var a, b := Appended(Merged(w, h, done), PREFIX + k, h[k]), Merged(w, h, done + {k});
            (key in a <==> key in b) && Lookup(a, key) == Lookup(b, key)
  {
    MergedAt(w, h, done, key);
    MergedAt(w, h, done + {k}, key);
    AddedOne(h, done, k, key);
  }

  lemma MergeOne(w: Values, h: Values, done: set<string>, k: string)
    requires k in h && k !in done
    ensures Merged(w, h, done + {k}) == Appended(Merged(w, h, done), PREFIX + k, h[k])
  {
    var a, b := Appended(Merged(w, h, done), PREFIX + k, h[k]), Merged(w, h, done + {k});
    forall key ensures (key in a <==> key in b) && Lookup(a, key) == Lookup(b, key) {
      MergeOneAt(w, h, done, k, key);
    }
    SameValues(a, b);
  }

  lemma MergeNone(w: Values, h: Values)
    ensures Merged(w, h, {}) == w
  {
    var m := Merged(w, h, {});
    forall key ensures (key in m <==> key in w) && (key in m ==> m[key] == w[key]) {
      MergedAt(w, h, {}, key);
      assert key in m ==> m[key] == Lookup(m, key);
    }
  }

  /** Publisher.Publish up to the hand-over to the connection; the map is ranged over in any order. */
  method BuildWire(traces: seq<(string, string)>, id: string, h: Header) returns (wire: HeaderMap)
    ensures fresh(wire) && wire.entries == WireOf(traces, id, h)
  {
    wire := new HeaderMap();
    for i := 0 to |traces|
      invariant fresh(wire) && wire.entries == Traced(traces[..i])
    {
      assert traces[..i + 1][..i] == traces[..i];
      wire.Set(traces[i].0, traces[i].1);
    }
    assert traces[..|traces|] == traces;
    if id != "" {
      wire.Set(MESSAGE_ID, id);
    }
    if h.Some? {
      AddHeader(wire, h.value);
    }
  }

  method AddHeader(wire: HeaderMap, h: Values)
    modifies wire
    ensures wire.entries == Merged(old(wire.entries), h, h.Keys)
  {
    var todo := h.Keys;
    MergeNone(wire.entries, h);
    while todo != {}
      invariant todo <= h.Keys && wire.entries == Merged(old(wire.entries), h, h.Keys - todo)
    {
      var k :| k in todo;
      MergeOne(old(wire.entries), h, h.Keys - todo, k);
      AddValues(wire, PREFIX + k, h[k]);
      assert h.Keys - todo + {k} == h.Keys - (todo - {k});
      todo := todo - {k};
    }
    assert h.Keys - todo == h.Keys;
  }

  method AddValues(wire: HeaderMap, key: string, vs: seq<string>)
    modifies wire
    ensures wire.entries == Appended(old(wire.entries), key, vs)
  {
    for i := 0 to |vs|
      invariant wire.entries == Appended(old(wire.entries), key, vs[..i])
    {
      assert vs[..i + 1] == vs[..i] + [vs[i]];
      AppendOne(old(wire.entries), key, vs[..i], vs[i]);
      wire.Add(key, vs[i]);
    }
    assert vs[..|vs|] == vs;
  }

  // ---------------------------------------------------------------------------
  // The subscriber
  // ---------------------------------------------------------------------------

  function Stripped(w: Values, keys: set<string>): Values
    requires keys <= w.Keys
  {
    map k | k in (set key | key in keys && HasPrefix(key) :: Strip(key)) && PREFIX + k in w :: w[PREFIX + k]
  }

  /** extractGofluxHeaders: nil if there is nothing to extract. */
  function Extracted(w: Values): Header {
    var m := Stripped(w, w.Keys);
    if m == map[] then None else Some(m)
  }

  method Extract(w: Values) returns (out: Header)
    ensures out == Extracted(w)
  {
    out := None;
    var todo := w.Keys;
    while todo != {}
      invariant todo <= w.Keys
      invariant var m := Stripped(w, w.Keys - todo); out == if m == map[] then None else Some(m)
    {
      var key :| key in todo;
      ghost var before := Stripped(w, w.Keys - todo);
      ghost var after := Stripped(w, w.Keys - (todo - {key}));
      StripOne(w, w.Keys - todo, key);
      assert w.Keys - todo + {key} == w.Keys - (todo - {key});
      if HasPrefix(key) {
        if out.None? {
          out := Some(map[]);
        }
        out := Some(out.value[Strip(key) := w[key]]);
        assert Strip(key) in after;
      }
      todo := todo - {key};
    }
    assert w.Keys - todo == w.Keys;
  }

  lemma StripOne(w: Values, done: set<string>, key: string)
    requires done <= w.Keys && key in w
    ensures Stripped(w, done + {key})
         == if HasPrefix(key) then Stripped(w, done)[Strip(key) := w[key]] else Stripped(w, done)
  {
    if HasPrefix(key) {
      PrefixStrip(key);
    }
    var a, b := Stripped(w, done), Stripped(w, done + {key});
    forall k ensures k in b <==> k in a || (HasPrefix(key) && k == Strip(key)) {
      if k in b {
        var key' :| key' in done + {key} && HasPrefix(key') && Strip(key') == k;
      }
    }
  }

  // ---------------------------------------------------------------------------
  // Round trip
  // ---------------------------------------------------------------------------

  function NonEmpty(h: Values): Values {
    map k | k in h && h[k] != [] :: h[k]
  }

  /** A header without its empty value lists; nil if nothing is left. */
  function Normal(h: Header): Header {
    if h.None? || NonEmpty(h.value) == map[] then None else Some(NonEmpty(h.value))
  }

  /** The propagator's keys stay out of goflux's name space. */
  predicate Clean(traces: seq<(string, string)>) {
    forall i | 0 <= i < |traces| :: !HasPrefix(traces[i].0)
  }

  lemma {:induction false} TracedKeys(traces: seq<(string, string)>)
    ensures forall key :: key in Traced(traces) <==> exists i :: 0 <= i < |traces| && traces[i].0 == key
    ensures forall key | key in Traced(traces) :: |Traced(traces)[key]| == 1
  {
    if traces == [] {
    } else {
      var before := traces[..|traces| - 1];
      TracedKeys(before);
      forall key ensures key in Traced(traces) <==> exists i :: 0 <= i < |traces| && traces[i].0 == key {
        if key in Traced(before) {
          var i :| 0 <= i < |before| && before[i].0 == key;
          assert traces[i].0 == key;
        }
        if i :| 0 <= i < |traces| && traces[i].0 == key {
          if i < |before| {
            assert before[i].0 == key;
          }
        }
      }
    }
  }

  /** What is on the wire under a header key. */
  lemma OnWire(traces: seq<(string, string)>, id: string, h: Header, k: string)
    ensures var w := WireOf(traces, id, h);
            && Lookup(w, PREFIX + k)
               == Lookup(Traced(traces), PREFIX + k) + (if h.Some? then Lookup(h.value, k) else [])
            && (PREFIX + k in w <==> PREFIX + k in Traced(traces) || (h.Some? && Lookup(h.value, k) != []))
  {
    StripPrefix(k);
    IdIsUnprefixed();
    if h.Some? {
      MergedAt(WithId(Traced(traces), id), h.value, h.value.Keys, PREFIX + k);
    }
  }

  /** The names on the wire: header keys carry their prefix, and the message ID has its own key. */
  lemma WireFormat(traces: seq<(string, string)>, id: string, h: Values, k: string)
    requires Clean(traces)
    ensures Lookup(WireOf(traces, id, Some(h)), "X-Goflux-" + k) == Lookup(h, k)
    ensures id != "" ==> Lookup(WireOf(traces, id, Some(h)), "X-Message-ID") == [id]
  {
    OnWire(traces, id, Some(h), k);
    StripPrefix(k);
    TracedKeys(traces);
    assert PREFIX + k !in Traced(traces);
    IdIsUnprefixed();
    MergedAt(WithId(Traced(traces), id), h, h.Keys, MESSAGE_ID);
  }

  lemma StrippedAt(w: Values, k: string)
    ensures k in Stripped(w, w.Keys) <==> PREFIX + k in w
    ensures k in Stripped(w, w.Keys) ==> Stripped(w, w.Keys)[k] == Lookup(w, PREFIX + k)
  {
    StripPrefix(k);
  }

  function Kept(h: Header): Values {
    if h.Some? then NonEmpty(h.value) else map[]
  }

  lemma KeptAt(traces: seq<(string, string)>, id: string, h: Header, k: string)
    requires Clean(traces)
    ensures var w := WireOf(traces, id, h); var m := Stripped(w, w.Keys);
            (k in m <==> k in Kept(h)) && Lookup(m, k) == Lookup(Kept(h), k)
  {
    OnWire(traces, id, h, k);
    StrippedAt(WireOf(traces, id, h), k);
    StripPrefix(k);
    TracedKeys(traces);
    assert PREFIX + k !in Traced(traces);
  }

  lemma RoundTripClean(traces: seq<(string, string)>, id: string, h: Header)
    requires Clean(traces)
    ensures Extracted(WireOf(traces, id, h)) == Normal(h)
  {
    var w := WireOf(traces, id, h);
    var m := Stripped(w, w.Keys);
    forall k ensures (k in m <==> k in Kept(h)) && Lookup(m, k) == Lookup(Kept(h), k) {
      KeptAt(traces, id, h, k);
    }
    SameValues(m, Kept(h));
  }

  /**
   * The subscriber extracts exactly the header that was published, less its empty value lists, for
   * every header and message ID, if and only if the propagator stays out of the prefix.
   */
  lemma RoundTripExactly(traces: seq<(string, string)>, id: string, h: Header)
    ensures Extracted(WireOf(traces, id, h)) == Normal(h) <==> Clean(traces)
  {
    if Clean(traces) {
      RoundTripClean(traces, id, h);
    } else {
      var i :| 0 <= i < |traces| && HasPrefix(traces[i].0);
      PollutedKey(traces, id, h, i);
    }
  }

  /** A prefixed propagator key shows up in the header, with one value more than was published. */
  lemma PollutedKey(traces: seq<(string, string)>, id: string, h: Header, i: nat)
    requires i < |traces| && HasPrefix(traces[i].0)
    ensures Extracted(WireOf(traces, id, h)) != Normal(h)
  {
    var k, w := Strip(traces[i].0), WireOf(traces, id, h);
    PrefixStrip(traces[i].0);
    TracedKeys(traces);
    assert traces[i].0 in Traced(traces);
    OnWire(traces, id, h, k);
    StrippedAt(w, k);
    assert k in Stripped(w, w.Keys);
    assert |Stripped(w, w.Keys)[k]| == 1 + |if h.Some? then Lookup(h.value, k) else []|;
  }

  /** A non-empty message ID arrives whatever the propagator and the header write. */
  lemma IdArrives(traces: seq<(string, string)>, id: string, h: Header)
    ensures Get(WireOf(traces, id, h), MESSAGE_ID) == if id != "" then id else Get(Traced(traces), MESSAGE_ID)
  {
    IdIsUnprefixed();
    if h.Some? {
      MergedAt(WithId(Traced(traces), id), h.value, h.value.Keys, MESSAGE_ID);
    }
  }

  /** The propagator's own keys are on the wire with the value it set last. */
  lemma {:induction false} TracedLast(traces: seq<(string, string)>, i: nat)
    requires i < |traces| && forall j | i < j < |traces| :: traces[j].0 != traces[i].0
    ensures Lookup(Traced(traces), traces[i].0) == [traces[i].1]
  {
    if i == |traces| - 1 {
    } else {
      TracedLast(traces[..|traces| - 1], i);
    }
  }

  /** Neither the message ID nor any header disturbs them. */
  lemma TraceArrives(traces: seq<(string, string)>, id: string, h: Header, i: nat)
    requires i < |traces| && forall j | i < j < |traces| :: traces[j].0 != traces[i].0
    requires !HasPrefix(traces[i].0) && (traces[i].0 == MESSAGE_ID ==> id == "")
    ensures Lookup(WireOf(traces, id, h), traces[i].0) == [traces[i].1]
  {
    TracedLast(traces, i);
    if h.Some? {
      MergedAt(WithId(Traced(traces), id), h.value, h.value.Keys, traces[i].0);
    }
  }

  // ---------------------------------------------------------------------------
  // Any number of hops
  // ---------------------------------------------------------------------------

  /** One stage: the ID in the subscription's own context, and what its propagator injects. */
  datatype Stage = Stage(baseId: string, traces: seq<(string, string)>)

  /** The message ID in the context that a NATS subscriber gives to its handler. */
  function ContextId(w: Values, baseId: string): string {
    if Get(w, MESSAGE_ID) != "" then Get(w, MESSAGE_ID) else baseId
  }

  /** Subscriber callback, pipe.New's handler, publisher. */
  function Hop(w: Values, st: Stage): Values {
    WireOf(st.traces, ContextId(w, st.baseId), Extracted(w))
  }

  function Hops(w: Values, stages: seq<Stage>): Values {
    if stages == [] then w else Hop(Hops(w, stages[..|stages| - 1]), stages[|stages| - 1])
  }

  predicate NoIdInjected(traces: seq<(string, string)>) {
    forall i | 0 <= i < |traces| :: traces[i].0 != MESSAGE_ID
  }

  /** The ID after some stages: the first one that is not empty wins and stays. */
  function CarriedId(id: string, stages: seq<Stage>): string {
    if stages == [] then id
    else
      var before := CarriedId(id, stages[..|stages| - 1]);
      if before != "" then before else stages[|stages| - 1].baseId
  }

  lemma NormalIdempotent(h: Header)
    ensures Normal(Normal(h)) == Normal(h)
  {
    if Normal(h).Some? {
      var n := NonEmpty(h.value);
      assert NonEmpty(n) == n;
    }
  }

  /**
   * Through any chain of hops the header equals its value after the first one, and a non-empty
   * message ID is unchanged.
   */
  lemma {:induction false} HopsPreserve(traces: seq<(string, string)>, id: string, h: Header, stages: seq<Stage>)
    requires Clean(traces) && forall i | 0 <= i < |stages| :: Clean(stages[i].traces)
    ensures var w := Hops(WireOf(traces, id, h), stages);
            && Extracted(w) == Normal(h)
            && (id != "" ==> Get(w, MESSAGE_ID) == id)
  {
    if stages == [] {
      RoundTripClean(traces, id, h);
      IdArrives(traces, id, h);
    } else {
      var before, st := stages[..|stages| - 1], stages[|stages| - 1];
      HopsPreserve(traces, id, h, before);
      var w := Hops(WireOf(traces, id, h), before);
      RoundTripClean(st.traces, ContextId(w, st.baseId), Extracted(w));
      NormalIdempotent(h);
      IdArrives(st.traces, ContextId(w, st.baseId), Extracted(w));
    }
  }

  /** The propagator writes under the wire key of a header key. */
  predicate Pollutes(traces: seq<(string, string)>, k: string) {
    exists i :: 0 <= i < |traces| && traces[i].0 == PREFIX + k
  }

  lemma CleanIsUnpolluted(traces: seq<(string, string)>)
    ensures Clean(traces) <==> forall k :: !Pollutes(traces, k)
  {
    if i :| 0 <= i < |traces| && HasPrefix(traces[i].0) {
      PrefixStrip(traces[i].0);
      assert Pollutes(traces, Strip(traces[i].0));
    }
    forall k ensures Pollutes(traces, k) ==> !Clean(traces) {
      StripPrefix(k);
    }
  }

  function Count(h: Header, k: string): nat {
    if h.Some? then |Lookup(h.value, k)| else 0
  }

  lemma WireCount(traces: seq<(string, string)>, id: string, h: Header, k: string)
    ensures |Lookup(WireOf(traces, id, h), PREFIX + k)| == Count(h, k) + if Pollutes(traces, k) then 1 else 0
  {
    OnWire(traces, id, h, k);
    TracedKeys(traces);
  }

  lemma ExtractedCount(w: Values, k: string)
    ensures Count(Extracted(w), k) == |Lookup(w, PREFIX + k)|
  {
    StrippedAt(w, k);
  }

  /** A hop takes no values away from a header key, and adds one where its propagator writes. */
  lemma HopCount(w: Values, st: Stage, k: string)
    ensures |Lookup(Hop(w, st), PREFIX + k)|
         == |Lookup(w, PREFIX + k)| + if Pollutes(st.traces, k) then 1 else 0
  {
    ExtractedCount(w, k);
    WireCount(st.traces, ContextId(w, st.baseId), Extracted(w), k);
  }

  ghost predicate PollutesAny(stages: seq<Stage>, k: string) {
    exists i :: 0 <= i < |stages| && Pollutes(stages[i].traces, k)
  }

  /** How many values a header key has on the wire after the first i hops. */
  function CountAfter(w: Values, stages: seq<Stage>, k: string): nat -> nat {
    (i: nat) => if i <= |stages| then |Lookup(Hops(w, stages[..i]), PREFIX + k)| else 0
  }

  lemma CountStep(w: Values, stages: seq<Stage>, k: string, i: nat)
    requires i < |stages|
    ensures CountAfter(w, stages, k)(i + 1)
         == CountAfter(w, stages, k)(i) + if Pollutes(stages[i].traces, k) then 1 else 0
  {
    var before, after := stages[..i], stages[..i + 1];
    assert after[..|after| - 1] == before && after[|after| - 1] == stages[i];
    HopCount(Hops(w, before), stages[i], k);
  }

  lemma {:induction false} CountsGrow(counts: nat -> nat, adds: nat -> bool, n: nat)
    requires forall i: nat | i < n :: counts(i + 1) == counts(i) + if adds(i) then 1 else 0
    ensures counts(n) >= counts(0) && ((exists i: nat :: i < n && adds(i)) ==> counts(n) > counts(0))
  {
    if n == 0 {
    } else {
      CountsGrow(counts, adds, n - 1);
      assert counts(n - 1 + 1) == counts(n - 1) + if adds(n - 1) then 1 else 0;
    }
  }

  /** What a propagator has added under a header key never goes away. */
  lemma HopsCount(w: Values, stages: seq<Stage>, k: string)
    ensures |Lookup(Hops(w, stages), PREFIX + k)| >= |Lookup(w, PREFIX + k)|
    ensures PollutesAny(stages, k) ==> |Lookup(Hops(w, stages), PREFIX + k)| > |Lookup(w, PREFIX + k)|
  {
    var counts := CountAfter(w, stages, k);
    var adds: nat -> bool := (i: nat) => i < |stages| && Pollutes(stages[i].traces, k);
    forall i: nat | i < |stages| ensures counts(i + 1) == counts(i) + if adds(i) then 1 else 0 {
      CountStep(w, stages, k, i);
    }
    CountsGrow(counts, adds, |stages|);
    assert stages[..|stages|] == stages;
    if i :| 0 <= i < |stages| && Pollutes(stages[i].traces, k) {
      assert adds(i);
    }
  }

  lemma NormalCount(h: Header, k: string)
    ensures Count(Normal(h), k) == Count(h, k)
  {
    if h.Some? && Lookup(h.value, k) != [] {
      assert k in NonEmpty(h.value);
    }
  }

  ghost predicate AllClean(traces: seq<(string, string)>, stages: seq<Stage>) {
    Clean(traces) && forall i | 0 <= i < |stages| :: Clean(stages[i].traces)
  }

  lemma PollutedSomewhere(traces: seq<(string, string)>, stages: seq<Stage>) returns (k: string)
    requires !AllClean(traces, stages)
    ensures Pollutes(traces, k) || PollutesAny(stages, k)
  {
    if !Clean(traces) {
      CleanIsUnpolluted(traces);
      k :| Pollutes(traces, k);
    } else {
      var i :| 0 <= i < |stages| && !Clean(stages[i].traces);
      CleanIsUnpolluted(stages[i].traces);
      k :| Pollutes(stages[i].traces, k);
    }
  }

  lemma PollutedOnTheWay(traces: seq<(string, string)>, id: string, h: Header, stages: seq<Stage>, w: Values)
    requires w == Hops(WireOf(traces, id, h), stages) && !AllClean(traces, stages)
    ensures Extracted(w) != Normal(h)
  {
    var k := PollutedSomewhere(traces, stages);
    WireCount(traces, id, h, k);
    HopsCount(WireOf(traces, id, h), stages, k);
    ExtractedCount(w, k);
    NormalCount(h, k);
    assert Count(Extracted(w), k) > Count(Normal(h), k);
  }

  /**
   * Over any number of hops the header arrives as it was published, less its empty value lists, if
   * and only if every propagator on the way stays out of the prefix.
   */
  lemma HopsExactly(traces: seq<(string, string)>, id: string, h: Header, stages: seq<Stage>, w: Values)
    requires w == Hops(WireOf(traces, id, h), stages)
    ensures Extracted(w) == Normal(h) <==> AllClean(traces, stages)
  {
    if AllClean(traces, stages) {
      HopsPreserve(traces, id, h, stages);
    } else {
      PollutedOnTheWay(traces, id, h, stages, w);
    }
  }

  /** Which message ID comes out when the first one may be empty: the first that some stage supplies. */
  lemma {:induction false} HopsCarryId(traces: seq<(string, string)>, id: string, h: Header, stages: seq<Stage>)
    requires NoIdInjected(traces) && forall i | 0 <= i < |stages| :: NoIdInjected(stages[i].traces)
    ensures Get(Hops(WireOf(traces, id, h), stages), MESSAGE_ID) == CarriedId(id, stages)
  {
    if stages == [] {
      IdArrives(traces, id, h);
      TracedKeys(traces);
    } else {
      var before, st := stages[..|stages| - 1], stages[|stages| - 1];
      HopsCarryId(traces, id, h, before);
      var w := Hops(WireOf(traces, id, h), before);
      IdArrives(st.traces, ContextId(w, st.baseId), Extracted(w));
      TracedKeys(st.traces);
    }
  }
}
