/** The NATS subject builder of subject/nats, against splitting and the server's wildcard matching. */
module Subjects {
  import opened Core

  const FORBIDDEN := ".*> \t\n\r"

  /** validateSegment panics exactly when this is false. */
  predicate ValidSegment(s: string) {
    s != "" && forall i | 0 <= i < |s| :: s[i] !in FORBIDDEN
  }

  const PANIC := Error("nats: invalid segment", false)

  datatype Subject = Subject(joined: string)
  datatype Domain = Domain(prefix: string, name: string)
  datatype Entity = Entity(domain: string, name: string)
  datatype Event = Event(entity: string, name: string)

  /** strings.Join(segments, ".") */
  function Join(segments: seq<string>): string {
    if segments == [] then ""
    else if |segments| == 1 then segments[0]
    else segments[0] + "." + Join(segments[1..])
  }

  /** A constructor either panics or returns its value. */
  function New(segments: seq<string>): Result<Subject> {
    if forall s | s in segments :: ValidSegment(s) then Ok(Subject(Join(segments))) else Err(PANIC)
  }

  function SubjectDomain(p: Subject, name: string): Result<Domain> {
    if ValidSegment(name) then Ok(Domain(p.joined, name)) else Err(PANIC)
  }

  function NewDomain(name: string): Result<Domain> {
    if ValidSegment(name) then Ok(Domain("", name)) else Err(PANIC)
  }

  function DomainString(d: Domain): string {
    if d.prefix == "" then d.name else d.prefix + "." + d.name
  }

  function DomainAll(d: Domain): string {
    DomainString(d) + ".>"
  }

  function DomainEntity(d: Domain, name: string): Result<Entity> {
    if ValidSegment(name) then Ok(Entity(DomainString(d), name)) else Err(PANIC)
  }

  function EntityString(e: Entity): string {
    e.domain + "." + e.name
  }

  function EntityAll(e: Entity): string {
    EntityString(e) + ".>"
  }

  function EntityEvent(e: Entity, name: string): Result<Event> {
    if ValidSegment(name) then Ok(Event(EntityString(e), name)) else Err(PANIC)
  }

  function EventString(ev: Event): string {
    ev.entity + "." + ev.name
  }

  /** New(segments...).Domain(domain), Entity(entity) and Event(event) */
  function BuildDomain(segments: seq<string>, domain: string): Result<Domain> {
    match New(segments)
    case Err(e) => Err(e)
    case Ok(p) => SubjectDomain(p, domain)
  }

  function BuildEntity(segments: seq<string>, domain: string, entity: string): Result<Entity> {
    match BuildDomain(segments, domain)
    case Err(e) => Err(e)
    case Ok(d) => DomainEntity(d, entity)
  }

  function BuildEvent(segments: seq<string>, domain: string, entity: string, event: string): Result<Event> {
    match BuildEntity(segments, domain, entity)
    case Err(e) => Err(e)
    case Ok(e) => EntityEvent(e, event)
  }

  // ---------------------------------------------------------------------------
  // Splitting
  // ---------------------------------------------------------------------------

  /** The tokens of a subject: strings.Split(s, "."). */
  function Split(s: string): (tokens: seq<string>)
    ensures |tokens| >= 1
  {
    if s == "" then [""] else Prepend(s[0], Split(s[1..]))
  }

  function Prepend(c: char, tokens: seq<string>): (r: seq<string>)
    requires |tokens| >= 1
    ensures |r| >= 1
  {
    if c == '.' then [""] + tokens else [[c] + tokens[0]] + tokens[1..]
  }

  predicate DotFree(s: string) {
    forall i | 0 <= i < |s| :: s[i] != '.'
  }

  lemma {:induction false} SplitDotFree(s: string)
    requires DotFree(s)
    ensures Split(s) == [s]
  {
    if s == "" {
    } else {
      SplitDotFree(s[1..]);
      assert [s[0]] + s[1..] == s;
    }
  }

  lemma {:induction false} SplitAtDot(a: string, b: string)
    ensures Split(a + "." + b) == Split(a) + Split(b)
  {
    if a == "" {
      assert a + "." + b == ['.'] + b && (a + "." + b)[1..] == b;
      assert Split(a + "." + b) == Prepend('.', Split(b));
    } else {
      assert (a + "." + b)[1..] == a[1..] + "." + b;
      SplitAtDot(a[1..], b);
    }
  }

  /** Joining the tokens of any string gives it back. */
  lemma {:induction false} JoinSplit(s: string)
    ensures Join(Split(s)) == s
  {
    if s == "" {
    } else {
      JoinSplit(s[1..]);
      var rest := Split(s[1..]);
      if s[0] == '.' {
        assert ([""] + rest)[1..] == rest;
        assert "" + "." + Join(rest) == s;
      } else {
        var tokens := [[s[0]] + rest[0]] + rest[1..];
        if |rest| > 1 {
          assert tokens[1..] == rest[1..];
          assert Join(tokens) == [s[0]] + Join(rest);
        }
        assert [s[0]] + s[1..] == s;
      }
    }
  }

  lemma {:induction false} SplitJoin(segments: seq<string>)
    requires segments != [] && forall s | s in segments :: DotFree(s)
    ensures Split(Join(segments)) == segments
  {
    SplitDotFree(segments[0]);
    if |segments| == 1 {
    } else {
      SplitJoin(segments[1..]);
      SplitAtDot(segments[0], Join(segments[1..]));
    }
  }

  // ---------------------------------------------------------------------------
  // Round trip
  // ---------------------------------------------------------------------------

  predicate AllValid(segments: seq<string>) {
    forall s | s in segments :: ValidSegment(s)
  }

  lemma JoinNonEmpty(segments: seq<string>)
    requires AllValid(segments)
    ensures Join(segments) == "" <==> segments == []
  {
    if |segments| == 1 {
      assert ValidSegment(segments[0]);
    } else if |segments| > 1 {
      assert |Join(segments)| >= |"."|;
    }
  }

  lemma SplitPrefix(segments: seq<string>)
    requires AllValid(segments) && segments != []
    ensures Split(Join(segments)) == segments
  {
    forall s | s in segments ensures DotFree(s) {
    }
    SplitJoin(segments);
  }

  /** A domain is built exactly from valid segments, and its string splits back into them. */
  lemma DomainTokens(segments: seq<string>, domain: string)
    ensures BuildDomain(segments, domain).Ok? <==> AllValid(segments + [domain])
    ensures BuildDomain(segments, domain).Ok? ==>
              Split(DomainString(BuildDomain(segments, domain).value)) == segments + [domain]
  {
    assert AllValid(segments + [domain]) <==> AllValid(segments) && ValidSegment(domain) by {
      assert domain in segments + [domain];
    }
    if AllValid(segments) && ValidSegment(domain) {
      SplitDotFree(domain);
      JoinNonEmpty(segments);
      if segments == [] {
        assert segments + [domain] == [domain];
      } else {
        SplitPrefix(segments);
        SplitAtDot(Join(segments), domain);
      }
    }
  }

  lemma EntityTokens(segments: seq<string>, domain: string, entity: string)
    ensures BuildEntity(segments, domain, entity).Ok? <==> AllValid(segments + [domain, entity])
    ensures BuildEntity(segments, domain, entity).Ok? ==>
              Split(EntityString(BuildEntity(segments, domain, entity).value)) == segments + [domain, entity]
  {
    DomainTokens(segments, domain);
    assert segments + [domain, entity] == segments + [domain] + [entity];
    assert AllValid(segments + [domain, entity]) <==> AllValid(segments + [domain]) && ValidSegment(entity) by {
      assert entity in segments + [domain] + [entity];
    }
    if AllValid(segments + [domain, entity]) {
      SplitDotFree(entity);
      SplitAtDot(DomainString(BuildDomain(segments, domain).value), entity);
    }
  }

  /**
   * Round trip: building succeeds exactly for valid segments, and splitting the event string gives
   * back the prefix segments, the domain, the entity and the event.
   */
  lemma EventTokens(segments: seq<string>, domain: string, entity: string, event: string)
    ensures BuildEvent(segments, domain, entity, event).Ok? <==> AllValid(segments + [domain, entity, event])
    ensures BuildEvent(segments, domain, entity, event).Ok? ==>
              Split(EventString(BuildEvent(segments, domain, entity, event).value))
              == segments + [domain, entity, event]
  {
    EntityTokens(segments, domain, entity);
    assert segments + [domain, entity, event] == segments + [domain, entity] + [event];
    assert AllValid(segments + [domain, entity, event])
        <==> AllValid(segments + [domain, entity]) && ValidSegment(event) by {
      assert event in segments + [domain, entity] + [event];
    }
    if AllValid(segments + [domain, entity, event]) {
      SplitDotFree(event);
      SplitAtDot(EntityString(BuildEntity(segments, domain, entity).value), event);
    }
  }

  /** The string of a built event determines every segment, including how many prefix segments there are. */
  lemma BuildingIsInjective(segments: seq<string>, domain: string, entity: string, event: string,
                            segments': seq<string>, domain': string, entity': string, event': string)
    requires BuildEvent(segments, domain, entity, event).Ok? && BuildEvent(segments', domain', entity', event').Ok?
    requires EventString(BuildEvent(segments, domain, entity, event).value)
          == EventString(BuildEvent(segments', domain', entity', event').value)
    ensures segments == segments' && domain == domain' && entity == entity' && event == event'
  {
    EventTokens(segments, domain, entity, event);
    EventTokens(segments', domain', entity', event');
    var a, b := segments + [domain, entity, event], segments' + [domain', entity', event'];
    assert a == b && |segments| == |segments'|;
    assert segments == a[..|segments|] == b[..|segments|] == segments';
    assert a[|segments|] == b[|segments|] && a[|segments| + 1] == b[|segments| + 1];
    assert a[|segments| + 2] == b[|segments| + 2];
  }

  /** NewDomain is the shortcut it says it is. */
  lemma NewDomainIsShortcut(name: string)
    ensures NewDomain(name) == BuildDomain([], name)
  {
  }

  // ---------------------------------------------------------------------------
  // Wildcards
  // ---------------------------------------------------------------------------

  /** Subject matching as the NATS server does it: '*' stands for one token, a final '>' for one or more. */
  predicate TokensMatch(pattern: seq<string>, tokens: seq<string>) {
    if pattern == [] then tokens == []
    else if tokens == [] then false
    else if pattern == [">"] then true
    else (pattern[0] == "*" || pattern[0] == tokens[0]) && TokensMatch(pattern[1..], tokens[1..])
  }

  predicate Matches(pattern: string, subject: string) {
    TokensMatch(Split(pattern), Split(subject))
  }

  predicate Literal(tokens: seq<string>) {
    forall t | t in tokens :: t != "*" && t != ">"
  }

  lemma {:induction false} AllMatchesExtensions(prefix: seq<string>, tokens: seq<string>)
    requires Literal(prefix)
    ensures TokensMatch(prefix + [">"], tokens) <==> prefix < tokens
  {
    if prefix == [] {
      assert prefix + [">"] == [">"];
    } else {
      assert (prefix + [">"])[1..] == prefix[1..] + [">"];
      assert prefix[0] in prefix;
      assert prefix + [">"] != [">"];
      if tokens != [] {
        assert forall t | t in prefix[1..] :: t in prefix;
        AllMatchesExtensions(prefix[1..], tokens[1..]);
        assert tokens == [tokens[0]] + tokens[1..] && prefix == [prefix[0]] + prefix[1..];
      }
    }
  }

  /** A pattern without wildcards matches itself only. */
  lemma {:induction false} LiteralMatches(pattern: seq<string>, tokens: seq<string>)
    requires Literal(pattern)
    ensures TokensMatch(pattern, tokens) <==> pattern == tokens
  {
    if pattern == [] {
    } else {
      assert pattern[0] in pattern;
      assert pattern != [">"];
      if tokens != [] {
        assert forall t | t in pattern[1..] :: t in pattern;
        LiteralMatches(pattern[1..], tokens[1..]);
        assert pattern == [pattern[0]] + pattern[1..] && tokens == [tokens[0]] + tokens[1..];
      }
    }
  }

  /** '*' stands for exactly one token. */
  lemma {:induction false} StarMatchesOne(a: seq<string>, b: seq<string>, tokens: seq<string>)
    requires Literal(a) && Literal(b)
    ensures TokensMatch(a + ["*"] + b, tokens)
       <==> |tokens| == |a| + 1 + |b| && tokens[..|a|] == a && tokens[|a| + 1..] == b
  {
    var pattern := a + ["*"] + b;
    if tokens == [] {
    } else if a == [] {
      assert pattern == ["*"] + b && pattern[0] == "*" && pattern[1..] == b;
      assert pattern[0] != ">";
      LiteralMatches(b, tokens[1..]);
      assert TokensMatch(pattern, tokens) <==> TokensMatch(b, tokens[1..]);
      assert tokens[..0] == [];
    } else {
      var rest := tokens[1..];
      assert a[0] in a && forall t | t in a[1..] :: t in a;
      assert pattern[1..] == a[1..] + ["*"] + b;
      StarMatchesOne(a[1..], b, rest);
      assert |tokens| > |a| ==> tokens[..|a|] == [tokens[0]] + rest[..|a| - 1] && tokens[|a| + 1..] == rest[|a|..];
      assert a == [a[0]] + a[1..];
    }
  }

  /** A subscription on the subject of a built event gets that subject and no other. */
  lemma EventMatchesItself(segments: seq<string>, domain: string, entity: string, event: string, subject: string)
    requires BuildEvent(segments, domain, entity, event).Ok?
    ensures var path := EventString(BuildEvent(segments, domain, entity, event).value);
            Matches(path, subject) <==> subject == path
  {
    var path := EventString(BuildEvent(segments, domain, entity, event).value);
    EventTokens(segments, domain, entity, event);
    ValidIsLiteral(segments + [domain, entity, event]);
    LiteralMatches(Split(path), Split(subject));
    JoinSplit(path);
    JoinSplit(subject);
  }

  lemma ValidIsLiteral(segments: seq<string>)
    requires AllValid(segments)
    ensures Literal(segments)
  {
    assert FORBIDDEN[1] == '*' && FORBIDDEN[2] == '>';
    forall t | t in segments ensures t != "*" && t != ">" {
      assert ValidSegment(t) && t[0] !in FORBIDDEN;
    }
  }

  /** A pattern made by All, for the tokens of the path it was called on. */
  lemma PatternTokens(path: string, tokens: seq<string>)
    requires Split(path) == tokens
    ensures Split(path + ".>") == tokens + [">"]
  {
    assert path + ".>" == path + "." + ">";
    SplitAtDot(path, ">");
    SplitDotFree(">");
  }

  /** Domain.All matches exactly the subjects nested below the domain, whoever built them. */
  lemma DomainAllExact(segments: seq<string>, domain: string, subject: string)
    requires BuildDomain(segments, domain).Ok?
    ensures Matches(DomainAll(BuildDomain(segments, domain).value), subject)
       <==> segments + [domain] < Split(subject)
  {
    DomainTokens(segments, domain);
    ValidIsLiteral(segments + [domain]);
    PatternTokens(DomainString(BuildDomain(segments, domain).value), segments + [domain]);
    AllMatchesExtensions(segments + [domain], Split(subject));
  }

  /** Entity.All matches exactly the subjects nested below the entity. */
  lemma EntityAllExact(segments: seq<string>, domain: string, entity: string, subject: string)
    requires BuildEntity(segments, domain, entity).Ok?
    ensures Matches(EntityAll(BuildEntity(segments, domain, entity).value), subject)
       <==> segments + [domain, entity] < Split(subject)
  {
    EntityTokens(segments, domain, entity);
    ValidIsLiteral(segments + [domain, entity]);
    PatternTokens(EntityString(BuildEntity(segments, domain, entity).value), segments + [domain, entity]);
    AllMatchesExtensions(segments + [domain, entity], Split(subject));
  }

  /** A built event is below its own domain and entity, and below no other ones. */
  lemma EventBelowDomain(segments: seq<string>, domain: string, entity: string, event: string,
                         segments': seq<string>, domain': string)
    requires BuildEvent(segments, domain, entity, event).Ok? && BuildDomain(segments', domain').Ok?
    ensures Matches(DomainAll(BuildDomain(segments', domain').value),
                    EventString(BuildEvent(segments, domain, entity, event).value))
       <==> segments' + [domain'] < segments + [domain, entity, event]
  {
    EventTokens(segments, domain, entity, event);
    DomainAllExact(segments', domain', EventString(BuildEvent(segments, domain, entity, event).value));
  }

  /** Some subject that could be published, made of valid tokens, matches both patterns. */
  ghost predicate Overlap(p: string, q: string) {
    exists tokens: seq<string> ::
      tokens != [] && AllValid(tokens) && Matches(p, Join(tokens)) && Matches(q, Join(tokens))
  }

  /** Two All patterns overlap exactly when the path of one is a prefix of the path of the other. */
  lemma PatternsOverlap(path: string, tokens: seq<string>, path': string, tokens': seq<string>)
    requires AllValid(tokens) && tokens != [] && Split(path) == tokens
    requires AllValid(tokens') && tokens' != [] && Split(path') == tokens'
    ensures Overlap(path + ".>", path' + ".>") <==> (tokens <= tokens' || tokens' <= tokens)
  {
    ValidIsLiteral(tokens);
    ValidIsLiteral(tokens');
    PatternTokens(path, tokens);
    PatternTokens(path', tokens');
    if tokens <= tokens' || tokens' <= tokens {
      var longer := if tokens <= tokens' then tokens' else tokens;
      var witness' := longer + ["x"];
      assert AllValid(witness');
      SplitPrefix(witness');
      AllMatchesExtensions(tokens, witness');
      AllMatchesExtensions(tokens', witness');
      assert Matches(path + ".>", Join(witness')) && Matches(path' + ".>", Join(witness'));
    }
    if Overlap(path + ".>", path' + ".>") {
      var common: seq<string> :| common != [] && AllValid(common)
        && Matches(path + ".>", Join(common)) && Matches(path' + ".>", Join(common));
      SplitPrefix(common);
      AllMatchesExtensions(tokens, common);
      AllMatchesExtensions(tokens', common);
    }
  }

  /** The same for the patterns of two built domains. */
  lemma DomainPatternsOverlap(segments: seq<string>, domain: string, segments': seq<string>, domain': string)
    requires BuildDomain(segments, domain).Ok? && BuildDomain(segments', domain').Ok?
    ensures Overlap(DomainAll(BuildDomain(segments, domain).value), DomainAll(BuildDomain(segments', domain').value))
       <==> (segments + [domain] <= segments' + [domain'] || segments' + [domain'] <= segments + [domain])
  {
    DomainTokens(segments, domain);
    DomainTokens(segments', domain');
    PatternsOverlap(DomainString(BuildDomain(segments, domain).value), segments + [domain],
                    DomainString(BuildDomain(segments', domain').value), segments' + [domain']);
  }

  /** White space as Go's unicode.IsSpace has it. */
  predicate IsSpace(c: char) {
    || c in " \t\n\r" || c in "\U{000B}\U{000C}\U{0085}\U{00A0}\U{1680}"
    || '\U{2000}' <= c <= '\U{200A}' || c in "\U{2028}\U{2029}\U{202F}\U{205F}\U{3000}"
  }

  /** A valid segment as documented: not empty, without the three special characters and white space. */
  predicate DocumentedValid(s: string) {
    s != "" && forall i | 0 <= i < |s| :: s[i] !in ".*>" && !IsSpace(s[i])
  }

  predicate HasUnlistedSpace(s: string) {
    exists i :: 0 <= i < |s| && IsSpace(s[i]) && s[i] !in FORBIDDEN
  }

  predicate HasForbidden(s: string) {
    exists i :: 0 <= i < |s| && s[i] in FORBIDDEN
  }

  lemma ForbiddenIsInvalid(c: char)
    ensures c in FORBIDDEN <==> c in ".*>" || c in " \t\n\r"
    ensures c in FORBIDDEN ==> c in ".*>" || IsSpace(c)
  {
    assert FORBIDDEN == ".*>" + " \t\n\r";
  }

  /** It accepts too much exactly for white space that it does not list. */
  lemma WronglyAccepted(s: string)
    ensures ValidSegment(s) && !DocumentedValid(s) <==> HasUnlistedSpace(s) && !HasForbidden(s)
  {
    forall i | 0 <= i < |s|
      ensures s[i] in FORBIDDEN <==> s[i] in ".*>" || (IsSpace(s[i]) && s[i] in FORBIDDEN)
    {
      ForbiddenIsInvalid(s[i]);
    }
    if HasUnlistedSpace(s) {
      assert s != "";
    }
  }

  /**
   * Validation and documentation agree on a segment exactly when it has no white space outside the
   * listed four characters, or is empty or has a listed character and so is rejected anyway.
   */
  lemma ValidationAsDocumented(s: string)
    ensures (ValidSegment(s) <==> DocumentedValid(s)) <==> (!HasUnlistedSpace(s) || s == "" || HasForbidden(s))
  {
    WronglyAccepted(s);
  }

  /** Such segments exist: a vertical tab or a no-break space is accepted. */
  lemma OtherWhitespaceIsAccepted()
    ensures ValidSegment("a\U{000B}b") && !DocumentedValid("a\U{000B}b")
    ensures ValidSegment("a\U{00A0}b") && !DocumentedValid("a\U{00A0}b")
  {
    var vt, nbsp := "a\U{000B}b", "a\U{00A0}b";
    assert vt[1] == "\U{000B}\U{000C}\U{0085}\U{00A0}\U{1680}"[0] && IsSpace(vt[1]);
    assert nbsp[1] == "\U{000B}\U{000C}\U{0085}\U{00A0}\U{1680}"[3] && IsSpace(nbsp[1]);
    assert vt[0] !in FORBIDDEN && vt[1] !in FORBIDDEN && vt[2] !in FORBIDDEN && nbsp[1] !in FORBIDDEN;
  }
}
