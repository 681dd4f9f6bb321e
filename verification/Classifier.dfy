/** Screen classification of src/chitra/agent_status.py.

    A screen is the list of lines of the bounded capture. What a pattern recognises in a text is an
    oracle; the evidence gate, the ordering and the override rules are modelled. */
module Classifier {
  import opened Basics
  import opened Text

  datatype AgentState = Idle | Working | Blocked | Done | Unknown | RateLimitedHard | RateLimitedWarn
  datatype Blocker = Approval | Question | Permission

  type Screen = seq<string>

  datatype MatcherKind = Contains | Regex | LineRegex
  datatype Matcher = Matcher(kind: MatcherKind, value: string, caseSensitive: bool)

  /** What the patterns recognise: in one line, in a whole text, on which last lines a regex finds
      something, and the resume time a cap banner names. */
  datatype Oracle = Oracle(inLine: (Matcher, string) -> bool, inText: (Matcher, Screen) -> bool,
                           ends: (Matcher, Screen) -> set<nat>,
                           resumeAt: Screen -> Option<string>)

  predicate SpansLines(m: Matcher) { m.kind.Regex? || (m.kind.Contains? && '\n' in m.value) }

  datatype Region = Whole | Bottom

  datatype Rule = Rule(id: string, state: AgentState, priority: int, region: Region, lines: int, kind: Option<Blocker>,
                       all: seq<Matcher>, any: seq<Matcher>, none: seq<Matcher>)

  // ---------------------------------------------------------------- manifests

  predicate ManifestState(s: AgentState) { !s.Done? && !s.Unknown? }

  predicate IdHead(c: char) { 'A' <= c <= 'Z' || 'a' <= c <= 'z' || '0' <= c <= '9' }

  predicate RuleId(s: string) {
    1 <= |s| <= 80 && IdHead(s[0]) && forall c :: c in s ==> IdHead(c) || c == '.' || c == '_' || c == '-'
  }

  predicate MatchersOk(ms: seq<Matcher>) { |ms| <= 32 && forall m :: m in ms ==> !Blank(m.value) && |m.value| <= 512 }

  /** What the parser demands of one rule. */
  predicate RuleOk(r: Rule) {
    && RuleId(r.id) && ManifestState(r.state) && 1 <= r.lines <= 200
    && (r.state.Blocked? <==> r.kind.Some?) && (r.state.Blocked? ==> r.region.Bottom?)
    && MatchersOk(r.all) && MatchersOk(r.any) && MatchersOk(r.none)
    && (r.all != [] || r.any != [])
  }

  predicate DistinctRuleIds(rules: seq<Rule>) { forall j, k :: 0 <= j < k < |rules| ==> rules[j].id != rules[k].id }

  /** Keep descending priority; an equal priority goes behind those already there. */
  function Insert(sorted: seq<Rule>, r: Rule): (s: seq<Rule>)
    ensures |s| == |sorted| + 1
    ensures multiset(s) == multiset(sorted) + multiset{r}
  {
    if sorted == [] then [r]
    else if sorted[0].priority < r.priority then [r] + sorted
    else (assert sorted == [sorted[0]] + sorted[1..]; [sorted[0]] + Insert(sorted[1..], r))
  }

  /** The stable sort by descending priority. */
  function ByPriority(rules: seq<Rule>): (s: seq<Rule>)
    ensures |s| == |rules|
    ensures multiset(s) == multiset(rules)
  {
    if rules == [] then []
    else
      assert rules == rules[..|rules| - 1] + [rules[|rules| - 1]];
      Insert(ByPriority(rules[..|rules| - 1]), rules[|rules| - 1])
  }

  /** The ordered rules of a manifest, or None when the parser rejects it. */
  function ParseRules(raw: seq<Rule>): (r: Option<seq<Rule>>)
    ensures r.Some? ==> multiset(r.value) == multiset(raw) && 1 <= |r.value| <= 128
  {
    if raw == [] || |raw| > 128 || !DistinctRuleIds(raw) || exists r :: r in raw && !RuleOk(r) then None
    else Some(ByPriority(raw))
  }

  lemma ParsedRulesOk(raw: seq<Rule>)
    requires ParseRules(raw).Some?
    ensures forall r :: r in ParseRules(raw).value ==> RuleOk(r) && r in raw
  {
    forall r | r in ParseRules(raw).value ensures RuleOk(r) && r in raw {
      assert r in multiset(ParseRules(raw).value);
      assert r in multiset(raw);
    }
  }

  // ---------------------------------------------------------------- evidence

  /** A bottom region is the last `lines` lines, or the whole screen if it is shorter; the slice `[-lines:]` of a
      count below one, which the parser refuses, drops lines from the top instead. */
  function RegionOf(r: Rule, screen: Screen): (lines: Screen)
    ensures |lines| <= |screen| && lines == screen[|screen| - |lines|..]
    ensures r.region.Whole? ==> lines == screen
    ensures r.region.Bottom? && r.lines > 0 ==> |lines| == if r.lines < |screen| then r.lines else |screen|
  {
    if r.region.Whole? then screen
    else if r.lines <= 0 then screen[if -r.lines < |screen| then -r.lines else |screen|..]
    else if |screen| <= r.lines then screen
    else screen[|screen| - r.lines..]
  }

  predicate Hits(o: Oracle, m: Matcher, text: Screen) {
    if SpansLines(m) then o.inText(m, text) else exists line :: line in text && o.inLine(m, line)
  }

  datatype Evaluation = Evaluation(ruleId: string, state: AgentState, priority: int, region: string, lines: int,
                                   matched: bool,
                                   all: seq<bool>, any: seq<bool>, none: seq<bool>)

  function Results(o: Oracle, ms: seq<Matcher>, text: Screen): (r: seq<bool>)
    ensures |r| == |ms|
    ensures forall k :: 0 <= k < |ms| ==> r[k] == Hits(o, ms[k], text)
  {
    seq(|ms|, k requires 0 <= k < |ms| => Hits(o, ms[k], text))
  }

  function Evaluate(o: Oracle, r: Rule, screen: Screen): (e: Evaluation)
    ensures |e.all| == |r.all| && |e.any| == |r.any| && |e.none| == |r.none|
  {
    var text := RegionOf(r, screen);
    var all, any, none := Results(o, r.all, text), Results(o, r.any, text), Results(o, r.none, text);
    Evaluation(r.id, r.state, r.priority, if r.region.Whole? then "whole" else "bottom", r.lines,
               false !in all && (any == [] || true in any) && true !in none, all, any, none)
  }

  predicate Matches(o: Oracle, r: Rule, screen: Screen) { Evaluate(o, r, screen).matched }

  /** What matching means: every `all` matcher hits the region, some `any` matcher if there are
      any, and no `not` matcher. */
  lemma MatchesMeans(o: Oracle, r: Rule, screen: Screen)
    ensures Matches(o, r, screen) <==>
            (var text := RegionOf(r, screen);
             && (forall m :: m in r.all ==> Hits(o, m, text))
             && (r.any == [] || exists m :: m in r.any && Hits(o, m, text))
             && (forall m :: m in r.none ==> !Hits(o, m, text)))
  {
    var text := RegionOf(r, screen);
    AllResults(o, r.all, text);
    AnyResults(o, r.any, text);
    AnyResults(o, r.none, text);
  }

  lemma AllResults(o: Oracle, ms: seq<Matcher>, text: Screen)
    ensures false !in Results(o, ms, text) <==> forall m :: m in ms ==> Hits(o, m, text)
  {
    var rs := Results(o, ms, text);
    if false !in rs {
      forall m | m in ms ensures Hits(o, m, text) { var k :| 0 <= k < |ms| && ms[k] == m; assert rs[k] in rs; }
    }
  }

  lemma AnyResults(o: Oracle, ms: seq<Matcher>, text: Screen)
    ensures true in Results(o, ms, text) <==> exists m :: m in ms && Hits(o, m, text)
  {
    var rs := Results(o, ms, text);
    if m :| m in ms && Hits(o, m, text) { var k :| 0 <= k < |ms| && ms[k] == m; assert rs[k] in rs; }
  }

  /** Where on the region's lines a positive matcher places its evidence. */
  predicate HitsAt(o: Oracle, m: Matcher, text: Screen, k: nat)
    requires k < |text|
  {
    if m.kind.Regex? then k in o.ends(m, text)
    else if '\n' in m.value then Hits(o, m, text) && k == |text| - 1
    else o.inLine(m, text[k])
  }

  predicate SomeHit(o: Oracle, ms: seq<Matcher>, text: Screen, k: nat)
    requires k < |text|
  {
    exists m :: m in ms && HitsAt(o, m, text, k)
  }

  /** The screen lines where some positive matcher of the rule hits. */
  predicate EvidenceAt(o: Oracle, r: Rule, screen: Screen, line: nat) {
    var text := RegionOf(r, screen);
    var offset := |screen| - |text|;
    offset <= line < |screen| && SomeHit(o, r.all + r.any, text, line - offset)
  }

  method PositiveMatchLines(o: Oracle, r: Rule, screen: Screen) returns (hits: set<nat>)
    ensures forall line :: line in hits <==> EvidenceAt(o, r, screen, line)
  {
    var text := RegionOf(r, screen);
    var offset: nat := |screen| - |text|;
    var matchers := r.all + r.any;
    hits := {};
    for i := 0 to |matchers|
      invariant forall line: nat :: line in hits <==>
                offset <= line < |screen| && SomeHit(o, matchers[..i], text, line - offset)
    {
      var here := set k: nat | k < |text| && HitsAt(o, matchers[i], text, k) :: offset + k;
      forall line: nat ensures line in hits + here <==>
          offset <= line < |screen| && SomeHit(o, matchers[..i + 1], text, line - offset) {
        if offset <= line < |screen| {
          SomeHitGrows(o, matchers, i, text, line - offset);
          if HitsAt(o, matchers[i], text, line - offset) { assert offset + (line - offset) in here; }
        }
      }
      hits := hits + here;
    }
    assert matchers[..|matchers|] == matchers;
  }

  lemma SomeHitGrows(o: Oracle, ms: seq<Matcher>, i: nat, text: Screen, k: nat)
    requires i < |ms| && k < |text|
    ensures SomeHit(o, ms[..i + 1], text, k) <==> SomeHit(o, ms[..i], text, k) || HitsAt(o, ms[i], text, k)
  {
    assert ms[..i + 1] == ms[..i] + [ms[i]];
  }

  /** A bare input row strictly below every line of the blocker's evidence. */
  predicate AnswerBelow(o: Oracle, idle: Rule, blocker: Rule, screen: Screen) {
    && (exists b :: 0 <= b < |screen| && EvidenceAt(o, blocker, screen, b))
    && exists k :: 0 <= k < |screen| && EvidenceAt(o, idle, screen, k) && WordCount(screen[k]) == 1
                   && forall b :: 0 <= b < |screen| && EvidenceAt(o, blocker, screen, b) ==> b < k
  }

  // ---------------------------------------------------------------- first in stable priority order

  datatype Want = Anything | Capped | AtWork | AtRest

  type Test = Rule -> bool

  /** A rule of the wanted kind. */
  function Wanting(want: Want): Test { (r: Rule) => Wanted(want, r.state) }

  function MatchTest(o: Oracle, screen: Screen): Test { (r: Rule) => Matches(o, r, screen) }

  /** A rule of the wanted kind that also passes `t`. */
  function Both(t: Test, want: Want): Test { (r: Rule) => Wanted(want, r.state) && t(r) }

  /** A rule of the wanted kind that matches the screen. */
  function Seeking(o: Oracle, screen: Screen, want: Want): Test { Both(MatchTest(o, screen), want) }

  predicate RateLimited(s: AgentState) { s.RateLimitedHard? || s.RateLimitedWarn? }

  predicate Wanted(w: Want, s: AgentState) {
    match w
    case Anything => true
    case Capped => RateLimited(s)
    case AtWork => s.Working?
    case AtRest => s.Idle?
  }

  predicate Passes(t: Test, r: Rule) { t(r) }

  function FirstWith(rules: seq<Rule>, t: Test): Option<Rule> {
    if rules == [] then None else if Passes(t, rules[0]) then Some(rules[0]) else FirstWith(rules[1..], t)
  }

  predicate Descending(rules: seq<Rule>) {
    forall j, k :: 0 <= j < k < |rules| ==> rules[j].priority >= rules[k].priority
  }

  lemma DescendingCons(r: Rule, rest: seq<Rule>)
    requires Descending(rest) && forall x :: x in rest ==> x.priority <= r.priority
    ensures Descending([r] + rest)
  {
    var all := [r] + rest;
    forall j, k | 0 <= j < k < |all| ensures all[j].priority >= all[k].priority {
      assert all[k] == rest[k - 1] && all[k] in rest;
      if j > 0 { assert all[j] == rest[j - 1]; }
    }
  }

  lemma DescendingTail(sorted: seq<Rule>)
    requires Descending(sorted) && sorted != []
    ensures Descending(sorted[1..]) && forall x :: x in sorted[1..] ==> x.priority <= sorted[0].priority
  {
    var rest := sorted[1..];
    assert forall k :: 0 <= k < |rest| ==> rest[k] == sorted[k + 1];
    forall x | x in rest ensures x.priority <= sorted[0].priority { var k :| 0 <= k < |rest| && rest[k] == x; }
  }

  lemma {:induction false} InsertHas(sorted: seq<Rule>, r: Rule, x: Rule)
    ensures x in Insert(sorted, r) <==> x in sorted || x == r
  {
    if sorted != [] && sorted[0].priority >= r.priority {
      InsertHas(sorted[1..], r, x);
      assert sorted == [sorted[0]] + sorted[1..];
    }
  }

  lemma {:induction false} InsertDescends(sorted: seq<Rule>, r: Rule)
    requires Descending(sorted)
    ensures Descending(Insert(sorted, r))
  {
    if sorted == [] { return; }
    DescendingTail(sorted);
    if sorted[0].priority >= r.priority {
      InsertDescends(sorted[1..], r);
      forall x | x in Insert(sorted[1..], r) ensures x.priority <= sorted[0].priority { InsertHas(sorted[1..], r, x); }
      DescendingCons(sorted[0], Insert(sorted[1..], r));
    } else {
      forall x | x in sorted ensures x.priority <= r.priority { if x != sorted[0] { assert x in sorted[1..]; } }
      DescendingCons(r, sorted);
    }
  }

  lemma ByPriorityDescends(rules: seq<Rule>)
    ensures Descending(ByPriority(rules))
  {
    if rules != [] {
      ByPriorityDescends(rules[..|rules| - 1]);
      InsertDescends(ByPriority(rules[..|rules| - 1]), rules[|rules| - 1]);
    }
  }

  /** The first rule of the highest priority among those that pass, in manifest order: no sorting. */
  function Best(rules: seq<Rule>, t: Test): Option<Rule> {
    if rules == [] then None
    else
      var best, last := Best(rules[..|rules| - 1], t), rules[|rules| - 1];
      if Passes(t, last) && (best.None? || last.priority > best.value.priority) then Some(last) else best
  }

  lemma FirstIsHighest(sorted: seq<Rule>, t: Test)
    requires Descending(sorted) && FirstWith(sorted, t).Some?
    ensures FirstWith(sorted, t).value.priority <= sorted[0].priority
  {
    if !Passes(t, sorted[0]) { FirstIsHighest(sorted[1..], t); assert sorted[1].priority <= sorted[0].priority; }
  }

  lemma {:induction false} FirstAfterInsert(sorted: seq<Rule>, r: Rule, t: Test)
    requires Descending(sorted)
    ensures var first := FirstWith(sorted, t);
            FirstWith(Insert(sorted, r), t) ==
            if Passes(t, r) && (first.None? || r.priority > first.value.priority) then Some(r) else first
  {
    if sorted == [] {
    } else if sorted[0].priority < r.priority {
      assert ([r] + sorted)[1..] == sorted;
      if FirstWith(sorted, t).Some? { FirstIsHighest(sorted, t); }
    } else {
      assert ([sorted[0]] + Insert(sorted[1..], r))[1..] == Insert(sorted[1..], r);
      FirstAfterInsert(sorted[1..], r, t);
    }
  }

  /** Scanning the sorted rules finds the best of the unsorted ones. */
  lemma {:induction false} FirstIsBest(rules: seq<Rule>, t: Test)
    ensures FirstWith(ByPriority(rules), t) == Best(rules, t)
  {
    if rules != [] {
      FirstIsBest(rules[..|rules| - 1], t);
      ByPriorityDescends(rules[..|rules| - 1]);
      FirstAfterInsert(ByPriority(rules[..|rules| - 1]), rules[|rules| - 1], t);
    }
  }

  /** What being the best means: it passes, nothing that passes has a higher priority, and nothing earlier the same. */
  lemma {:induction false} BestIs(rules: seq<Rule>, t: Test) returns (at: nat)
    requires exists r :: r in rules && Passes(t, r)
    ensures Best(rules, t).Some? && at < |rules| && rules[at] == Best(rules, t).value && Passes(t, rules[at])
    ensures forall j :: 0 <= j < |rules| && Passes(t, rules[j]) ==>
              rules[j].priority < rules[at].priority || (rules[j].priority == rules[at].priority && at <= j)
  {
    var front, last := rules[..|rules| - 1], rules[|rules| - 1];
    assert rules == front + [last];
    if exists r :: r in front && Passes(t, r) {
      at := BestIs(front, t);
      if Passes(t, last) && last.priority > front[at].priority { at := |front|; }
    } else {
      NoBest(front, t);
      at := |front|;
    }
  }

  lemma NoBest(rules: seq<Rule>, t: Test)
    requires forall r :: r in rules ==> !Passes(t, r)
    ensures Best(rules, t) == None
  {
    if rules != [] { NoBest(rules[..|rules| - 1], t); }
  }

  // ---------------------------------------------------------------- the verdict

  datatype Authority = Integration | Manifested | Fallback | Completion
  datatype SourceKind = FromIntegration | Local | Bundled | Internal

  datatype Claim = Claim(state: AgentState, source: Option<string>, authority: Authority)

  datatype Explain = Explain(
    agent: string, claim: Claim, kind: Option<SourceKind>, version: Option<string>, matched: Option<string>,
    blocker: Option<Blocker>, fallback: Option<string>, skipReason: Option<string>, skipped: bool,
    rules: seq<Evaluation>, warning: Option<string>, resumeAt: Option<string>, suppressed: Option<string>)

  datatype Manifest = Manifest(version: string, source: string, kind: SourceKind, rules: seq<Rule>)

  /** What the repository found for the agent. */
  datatype Load = Broken(warning: string) | Missing | Loaded(manifest: Manifest)

  datatype Win = Win(rule: Option<Rule>, suppressed: Option<string>)

  function Fell(agent: string, reason: string, warning: Option<string>): Explain {
    Explain(agent, Claim(Idle, None, Fallback), None, None, None, None, Some(reason), None, false, [], warning, None,
            None)
  }

  function Evaluations(o: Oracle, rules: seq<Rule>, screen: Screen): (r: seq<Evaluation>)
    ensures |r| == |rules|
  {
    if rules == [] then [] else Evaluations(o, rules[..|rules| - 1], screen) + [Evaluate(o, rules[|rules| - 1], screen)]
  }

  function Told(o: Oracle, m: Manifest, agent: string, screen: Screen, evaluations: seq<Evaluation>,
                win: Win): Explain {
    if win.rule.None? then
      Explain(agent, Claim(Idle, Some(m.source), Fallback), Some(m.kind), Some(m.version), None, None,
              Some("default_known_agent_idle_fallback"), None, false, evaluations, None, None, None)
    else
      var r := win.rule.value;
      Explain(agent, Claim(r.state, Some(m.source), Manifested), Some(m.kind), Some(m.version), Some(r.id), r.kind,
              None, None, false, evaluations, None,
              if r.state.RateLimitedHard? then o.resumeAt(RegionOf(r, screen)) else None, win.suppressed)
  }

  /** The first matching rule, in the given order, of the wanted kind. */
  function FirstMatch(o: Oracle, rules: seq<Rule>, screen: Screen, want: Want): Option<Rule> {
    FirstWith(rules, Seeking(o, screen, want))
  }

  /** A rate limit wins; otherwise the first match, except that a blocker yields to a match that works
      unless the screen is known stale, and otherwise to a bare input row below it. */
  function Pick(capped: Option<Rule>, top: Option<Rule>, working: Option<Rule>, idle: Option<Rule>, stale: bool,
                answered: bool): Win {
    if capped.Some? then Win(capped, None)
    else if top.None? || !top.value.state.Blocked? then Win(top, None)
    else if working.Some? && !stale then Win(working, Some(top.value.id))
    else if idle.Some? && answered then Win(idle, Some(top.value.id))
    else Win(top, None)
  }

  predicate Answered(o: Oracle, idle: Option<Rule>, top: Option<Rule>, screen: Screen) {
    idle.Some? && top.Some? && AnswerBelow(o, idle.value, top.value, screen)
  }

  function Winner(o: Oracle, rules: seq<Rule>, screen: Screen, live: Option<bool>): Win {
    var top, idle := FirstMatch(o, rules, screen, Anything), FirstMatch(o, rules, screen, AtRest);
    Pick(FirstMatch(o, rules, screen, Capped), top, FirstMatch(o, rules, screen, AtWork), idle, live == Some(false),
         Answered(o, idle, top, screen))
  }

  function Classified(o: Oracle, load: Load, agent: string, screen: Screen, live: Option<bool>): Explain {
    match load
    case Broken(warning) => Fell(agent, "manifest_error_idle_fallback", Some(warning))
    case Missing => Fell(agent, "unknown_agent_idle_fallback", None)
    case Loaded(m) => Told(o, m, agent, screen, Evaluations(o, m.rules, screen), Winner(o, m.rules, screen, live))
  }

  /** The rules that pass, in order. */
  function Filter(rules: seq<Rule>, t: Test): seq<Rule> {
    if rules == [] then []
    else
      var kept, last := Filter(rules[..|rules| - 1], t), rules[|rules| - 1];
      if Passes(t, last) then kept + [last] else kept
  }

  lemma FirstWithAppend(a: seq<Rule>, b: seq<Rule>, t: Test)
    ensures FirstWith(a + b, t) == if FirstWith(a, t).Some? then FirstWith(a, t) else FirstWith(b, t)
  {
    if a == [] { assert a + b == b; } else { assert (a + b)[1..] == a[1..] + b; }
  }

  lemma FirstWithOne(front: seq<Rule>, last: Rule, t: Test)
    ensures FirstWith(front + [last], t) == if FirstWith(front, t).Some? then FirstWith(front, t)
                                            else if Passes(t, last) then Some(last) else None
  {
    FirstWithAppend(front, [last], t);
  }

  lemma FilterStep(front: seq<Rule>, last: Rule, kept: seq<Rule>, hit: bool, sought: Test, wanted: Test)
    requires FirstWith(kept, wanted) == FirstWith(front, sought)
    requires Passes(sought, last) == (Passes(wanted, last) && hit)
    ensures FirstWith(if hit then kept + [last] else kept, wanted) == FirstWith(front + [last], sought)
  {
    FirstWithOne(front, last, sought);
    FirstWithOne(kept, last, wanted);
  }

  lemma {:induction false} FirstOfFilter(rules: seq<Rule>, t: Test, want: Want)
    ensures FirstWith(Filter(rules, t), Wanting(want)) == FirstWith(rules, Both(t, want))
  {
    if rules != [] {
      var front, last := rules[..|rules| - 1], rules[|rules| - 1];
      FirstOfFilter(front, t, want);
      FilterStep(front, last, Filter(front, t), Passes(t, last), Both(t, want), Wanting(want));
      assert rules == front + [last];
    }
  }

  /** Row k is bare and below every one of the given lines. */
  predicate BareBelow(screen: Screen, k: nat, lines: set<nat>) {
    k < |screen| && WordCount(screen[k]) == 1 && forall b :: b in lines ==> b < k
  }

  method IdleAnchorBelowBlocker(o: Oracle, idle: Rule, blocker: Rule, screen: Screen) returns (below: bool)
    ensures below <==> AnswerBelow(o, idle, blocker, screen)
  {
    var blockers := PositiveMatchLines(o, blocker, screen);
    if blockers == {} { return false; }
    var idles := PositiveMatchLines(o, idle, screen);
    below := exists k :: k in idles && BareBelow(screen, k, blockers);
    BelowMeans(o, idle, blocker, screen, idles, blockers);
  }

  lemma BelowMeans(o: Oracle, idle: Rule, blocker: Rule, screen: Screen, idles: set<nat>, blockers: set<nat>)
    requires blockers != {}
    requires forall line :: line in idles <==> EvidenceAt(o, idle, screen, line)
    requires forall line :: line in blockers <==> EvidenceAt(o, blocker, screen, line)
    ensures AnswerBelow(o, idle, blocker, screen) <==> exists k :: k in idles && BareBelow(screen, k, blockers)
  {
    var line :| line in blockers;
    assert EvidenceAt(o, blocker, screen, line);
    if AnswerBelow(o, idle, blocker, screen) {
      var k :| 0 <= k < |screen| && EvidenceAt(o, idle, screen, k) && WordCount(screen[k]) == 1
               && forall b :: 0 <= b < |screen| && EvidenceAt(o, blocker, screen, b) ==> b < k;
      assert k in idles && BareBelow(screen, k, blockers);
    }
    if k :| k in idles && BareBelow(screen, k, blockers) {
      assert EvidenceAt(o, idle, screen, k);
      assert forall b :: 0 <= b < |screen| && EvidenceAt(o, blocker, screen, b) ==> b in blockers;
    }
  }

  /** The classifier: one pass over the ordered rules, then the choice among the matches. */
  method ClassifySnapshot(o: Oracle, load: Load, agent: string, screen: Screen, live: Option<bool>) returns (e: Explain)
    ensures e == Classified(o, load, agent, screen, live)
  {
    if load.Broken? { return Fell(agent, "manifest_error_idle_fallback", Some(load.warning)); }
    if load.Missing? { return Fell(agent, "unknown_agent_idle_fallback", None); }
    var m := load.manifest;
    var evaluations, matched := EvaluateAll(o, m.rules, screen);
    var win := Choose(o, m.rules, matched, screen, live);
    e := Told(o, m, agent, screen, evaluations, win);
  }

  lemma FilterGrows(rules: seq<Rule>, t: Test, k: nat)
    requires k < |rules|
    ensures var kept := Filter(rules[..k], t);
            Filter(rules[..k + 1], t) == if Passes(t, rules[k]) then kept + [rules[k]] else kept
  {
    assert rules[..k + 1][..k] == rules[..k];
  }

  lemma EvaluationsGrow(o: Oracle, rules: seq<Rule>, screen: Screen, k: nat)
    requires k < |rules|
    ensures Evaluations(o, rules[..k + 1], screen) == Evaluations(o, rules[..k], screen) +
            [Evaluate(o, rules[k], screen)]
  {
    assert rules[..k + 1][..k] == rules[..k];
  }

  method EvaluateAll(o: Oracle, rules: seq<Rule>, screen: Screen)
    returns (evaluations: seq<Evaluation>, matched: seq<Rule>)
    ensures evaluations == Evaluations(o, rules, screen) && matched == Filter(rules, MatchTest(o, screen))
  {
    evaluations, matched := [], [];
    for k := 0 to |rules|
      invariant evaluations == Evaluations(o, rules[..k], screen)
      invariant matched == Filter(rules[..k], MatchTest(o, screen))
    {
      EvaluationsGrow(o, rules, screen, k);
      FilterGrows(rules, MatchTest(o, screen), k);
      var evaluation := Evaluate(o, rules[k], screen);
      evaluations := evaluations + [evaluation];
      if evaluation.matched { matched := matched + [rules[k]]; }
    }
    assert rules[..|rules|] == rules;
  }

  method Choose(o: Oracle, rules: seq<Rule>, matched: seq<Rule>, screen: Screen, live: Option<bool>) returns (win: Win)
    requires matched == Filter(rules, MatchTest(o, screen))
    ensures win == Winner(o, rules, screen, live)
  {
    FirstOfFilter(rules, MatchTest(o, screen), Capped);
    FirstOfFilter(rules, MatchTest(o, screen), Anything);
    FirstOfFilter(rules, MatchTest(o, screen), AtWork);
    FirstOfFilter(rules, MatchTest(o, screen), AtRest);
    var top := FirstWith(matched, Wanting(Anything));
    var capped := FirstWith(matched, Wanting(Capped));
    win := Win(top, None);
    if capped.Some? {
      win := Win(capped, None);
    } else if top.Some? && top.value.state.Blocked? {
      var working := FirstWith(matched, Wanting(AtWork));
      var idle := FirstWith(matched, Wanting(AtRest));
      if working.Some? && live != Some(false) {
        win := Win(working, Some(top.value.id));
      } else if idle.Some? {
        var below := IdleAnchorBelowBlocker(o, idle.value, top.value, screen);
        if below { win := Win(idle, Some(top.value.id)); }
      }
    }
  }

  // ---------------------------------------------------------------- main results

  function BestMatch(o: Oracle, raw: seq<Rule>, screen: Screen, want: Want): Option<Rule> {
    Best(raw, Seeking(o, screen, want))
  }

  lemma FirstMatchIsBest(o: Oracle, raw: seq<Rule>, screen: Screen, want: Want)
    requires ParseRules(raw).Some?
    ensures FirstMatch(o, ParseRules(raw).value, screen, want) == BestMatch(o, raw, screen, want)
  {
    FirstIsBest(raw, Seeking(o, screen, want));
  }

  /** A matching rate-limit rule always wins, and among those the highest priority, then the
      earliest in the manifest. */
  lemma RateLimitWins(o: Oracle, raw: seq<Rule>, screen: Screen, live: Option<bool>) returns (at: nat)
    requires ParseRules(raw).Some? && exists r :: r in raw && Passes(Seeking(o, screen, Capped), r)
    ensures at < |raw| && Winner(o, ParseRules(raw).value, screen, live) == Win(Some(raw[at]), None)
    ensures RateLimited(raw[at].state) && Matches(o, raw[at], screen)
    ensures forall j :: 0 <= j < |raw| && Passes(Seeking(o, screen, Capped), raw[j]) ==>
              raw[j].priority < raw[at].priority || (raw[j].priority == raw[at].priority && at <= j)
  {
    FirstMatchIsBest(o, raw, screen, Capped);
    at := BestIs(raw, Seeking(o, screen, Capped));
  }

  lemma WinnerIsBest(o: Oracle, raw: seq<Rule>, screen: Screen, live: Option<bool>)
    requires ParseRules(raw).Some?
    ensures var top, idle := BestMatch(o, raw, screen, Anything), BestMatch(o, raw, screen, AtRest);
            Winner(o, ParseRules(raw).value, screen, live) ==
            Pick(BestMatch(o, raw, screen, Capped), top, BestMatch(o, raw, screen, AtWork), idle, live == Some(false),
                 Answered(o, idle, top, screen))
  {
    FirstMatchIsBest(o, raw, screen, Capped);
    FirstMatchIsBest(o, raw, screen, Anything);
    FirstMatchIsBest(o, raw, screen, AtWork);
    FirstMatchIsBest(o, raw, screen, AtRest);
  }

  lemma {:induction false} BestPasses(rules: seq<Rule>, t: Test)
    ensures Best(rules, t).Some? ==> Passes(t, Best(rules, t).value)
  {
    if rules != [] { BestPasses(rules[..|rules| - 1], t); }
  }

  lemma BestKind(o: Oracle, raw: seq<Rule>, screen: Screen, want: Want)
    ensures BestMatch(o, raw, screen, want).Some? ==> Wanted(want, BestMatch(o, raw, screen, want).value.state)
  {
    BestPasses(raw, Seeking(o, screen, want));
  }

  /** The blocker gives way: to work on a screen not known stale, or to a bare input row below it. */
  predicate Yields(working: Option<Rule>, idle: Option<Rule>, stale: bool, answered: bool) {
    (working.Some? && !stale) || (idle.Some? && answered)
  }

  /** Without a rate limit the best match wins, unless it is a blocker that yields; it is then named, and the best
      working match displaces it if the screen is not known stale, the best idle match otherwise. */
  lemma WinnerIs(o: Oracle, raw: seq<Rule>, screen: Screen, live: Option<bool>)
    requires ParseRules(raw).Some? && BestMatch(o, raw, screen, Capped).None?
    ensures var top, working := BestMatch(o, raw, screen, Anything), BestMatch(o, raw, screen, AtWork);
            var idle := BestMatch(o, raw, screen, AtRest);
            var win := Winner(o, ParseRules(raw).value, screen, live);
            if top.Some? && top.value.state.Blocked? &&
              Yields(working, idle, live == Some(false), Answered(o, idle, top, screen))
            then
              && win == Win(if working.Some? && live != Some(false) then working else idle, Some(top.value.id))
              && win.rule.Some? && (win.rule.value.state.Working? || win.rule.value.state.Idle?)
            else win == Win(top, None)
  {
    WinnerIsBest(o, raw, screen, live);
    BestKind(o, raw, screen, AtWork);
    BestKind(o, raw, screen, AtRest);
  }

  lemma FirstPasses(rules: seq<Rule>, t: Test)
    ensures FirstWith(rules, t).Some? ==> FirstWith(rules, t).value in rules && Passes(t, FirstWith(rules, t).value)
  {
  }

  lemma WinnerInRules(o: Oracle, rules: seq<Rule>, screen: Screen, live: Option<bool>)
    ensures Winner(o, rules, screen, live).rule.Some? ==> Winner(o, rules, screen, live).rule.value in rules
  {
    FirstPasses(rules, Seeking(o, screen, Capped));
    FirstPasses(rules, Seeking(o, screen, Anything));
    FirstPasses(rules, Seeking(o, screen, AtWork));
    FirstPasses(rules, Seeking(o, screen, AtRest));
  }

  /** Every blocked state read off a screen names its kind, and nothing else does. */
  lemma BlockedCarriesKind(o: Oracle, load: Load, raw: seq<Rule>, agent: string, screen: Screen, live: Option<bool>)
    requires load.Loaded? ==> ParseRules(raw) == Some(load.manifest.rules)
    ensures var e := Classified(o, load, agent, screen, live); e.claim.state.Blocked? <==> e.blocker.Some?
  {
    if load.Loaded? {
      WinnerInRules(o, load.manifest.rules, screen, live);
      ParsedRulesOk(raw);
    }
  }
}
