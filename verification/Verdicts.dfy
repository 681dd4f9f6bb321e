/** What classify_snapshot of src/chitra/agent_status.py says of a screen, on the manifest as written and the fields
    of the answer: no sorting, no passes over the rules. */
module Verdicts {
  import opened Basics
  import opened Text
  import opened Classifier

  /** Some rule of one of the states matches. */
  ghost predicate Matching(o: Oracle, raw: seq<Rule>, screen: Screen, states: set<AgentState>) {
    exists r :: r in raw && r.state in states && Matches(o, r, screen)
  }

  /** The rule at `at` is one of those, and none of them has a higher priority, or the same and an earlier place. */
  ghost predicate Leads(o: Oracle, raw: seq<Rule>, screen: Screen, states: set<AgentState>, at: nat) {
    && at < |raw| && raw[at].state in states && Matches(o, raw[at], screen)
    && forall j :: 0 <= j < |raw| && raw[j].state in states && Matches(o, raw[j], screen) ==>
         raw[j].priority < raw[at].priority || (raw[j].priority == raw[at].priority && at <= j)
  }

  const Caps: set<AgentState> := {RateLimitedHard, RateLimitedWarn}
  const Every: set<AgentState> := {AgentState.Idle, AgentState.Working, AgentState.Blocked, AgentState.Done, Unknown,
                                   RateLimitedHard, RateLimitedWarn}

  /** What every answer made from a manifest says, whichever rule wins. */
  ghost predicate FromManifest(o: Oracle, m: Manifest, agent: string, screen: Screen, e: Explain) {
    && e.agent == agent && e.claim.source == Some(m.source) && e.kind == Some(m.kind) && e.version == Some(m.version)
    && !e.skipped && e.skipReason == None && e.warning == None && |e.rules| == |m.rules|
    && forall k :: 0 <= k < |m.rules| ==> Evidence(o, m.rules[k], screen, e.rules[k])
  }

  /** The evaluation kept of one rule: its identity, every matcher's answer on the rule's region, and their
      conclusion. */
  ghost predicate Evidence(o: Oracle, r: Rule, screen: Screen, v: Evaluation) {
    var text := RegionOf(r, screen);
    && v.ruleId == r.id && v.state == r.state && v.priority == r.priority && v.lines == r.lines
    && v.region == (match r.region case Whole => "whole" case Bottom => "bottom") && v.matched == Matches(o, r, screen)
    && |v.all| == |r.all| && |v.any| == |r.any| && |v.none| == |r.none|
    && (forall k :: 0 <= k < |r.all| ==> v.all[k] == Hits(o, r.all[k], text))
    && (forall k :: 0 <= k < |r.any| ==> v.any[k] == Hits(o, r.any[k], text))
    && (forall k :: 0 <= k < |r.none| ==> v.none[k] == Hits(o, r.none[k], text))
  }

  /** The answer that a rule's match gives: its state and blocker kind, and for a hard cap the time its region names. */
  ghost predicate Blames(o: Oracle, r: Rule, screen: Screen, e: Explain) {
    && e.claim.state == r.state && e.claim.authority == Manifested && e.matched == Some(r.id) && e.blocker == r.kind
    && e.fallback == None && e.resumeAt == if r.state.RateLimitedHard? then o.resumeAt(RegionOf(r, screen)) else None
  }

  // ---------------------------------------------------------------- when a manifest is accepted

  /** The parser accepts exactly the bounded, distinctly named, well-formed manifests, in any order. */
  lemma AcceptedIff(raw: seq<Rule>)
    ensures ParseRules(raw).Some? <==>
              && 1 <= |raw| <= 128 && (forall j, k :: 0 <= j < k < |raw| ==> raw[j].id != raw[k].id)
              && forall r :: r in raw ==>
                   && 1 <= |r.id| <= 80 && 1 <= r.lines <= 200 && r.state !in {AgentState.Done, Unknown} &&
                     r.all + r.any != []
                   && (if r.state.Blocked? then r.kind.Some? && r.region.Bottom? else r.kind.None?)
                   && IdHead(r.id[0]) && (forall c :: c in r.id ==> IdHead(c) || c in "._-")
                   && |r.all| <= 32 && |r.any| <= 32 && |r.none| <= 32
                   && forall m :: m in r.all + r.any + r.none ==> !Blank(m.value) && |m.value| <= 512
  {
    assert forall r: Rule :: r.all + r.any != [] <==> r.all != [] || r.any != [];
  }

  // ---------------------------------------------------------------- the winner

  function StatesOf(want: Want): set<AgentState> {
    match want
    case Anything => Every
    case Capped => Caps
    case AtWork => {AgentState.Working}
    case AtRest => {AgentState.Idle}
  }

  lemma WantedIs(want: Want, s: AgentState)
    ensures Wanted(want, s) <==> s in StatesOf(want)
  {
  }

  ghost function First(o: Oracle, raw: seq<Rule>, screen: Screen, states: set<AgentState>, at: nat): Option<Rule> {
    if Matching(o, raw, screen, states) && at < |raw| then Some(raw[at]) else None
  }

  lemma BestLeads(o: Oracle, raw: seq<Rule>, screen: Screen, want: Want) returns (at: nat)
    ensures BestMatch(o, raw, screen, want) == First(o, raw, screen, StatesOf(want), at)
    ensures Matching(o, raw, screen, StatesOf(want)) ==> Leads(o, raw, screen, StatesOf(want), at)
  {
    var t := Seeking(o, screen, want);
    forall r ensures Passes(t, r) <==> r.state in StatesOf(want) && Matches(o, r, screen) { WantedIs(want, r.state); }
    at := 0;
    if Matching(o, raw, screen, StatesOf(want)) { at := BestIs(raw, t); } else { NoBest(raw, t); }
  }

  /** The choice among the matching rules, by their places in the manifest. */
  ghost predicate Chosen(o: Oracle, raw: seq<Rule>, screen: Screen, live: Option<bool>, top: nat, idle: nat, win: nat,
                         suppressed: Option<string>)
  {
    && Leads(o, raw, screen, Every, top) && win < |raw|
    && (Matching(o, raw, screen, {AgentState.Idle}) ==> Leads(o, raw, screen, {AgentState.Idle}, idle))
    && if Matching(o, raw, screen, Caps) then Leads(o, raw, screen, Caps, win) && suppressed == None
       else if raw[top].state.Blocked? && live != Some(false) && Matching(o, raw, screen, {AgentState.Working})
       then Leads(o, raw, screen, {AgentState.Working}, win) && suppressed == Some(raw[top].id)
       else if raw[top].state.Blocked? && Matching(o, raw, screen, {AgentState.Idle}) &&
         AnswerBelow(o, raw[idle], raw[top], screen)
       then win == idle && suppressed == Some(raw[top].id)
       else win == top && suppressed == None
  }

  lemma WinnerIsChosen(o: Oracle, raw: seq<Rule>, screen: Screen, live: Option<bool>) returns (top: nat, idle: nat,
      win: nat)
    requires ParseRules(raw).Some?
    ensures var w := Winner(o, ParseRules(raw).value, screen, live);
            if Matching(o, raw, screen, Every)
            then Chosen(o, raw, screen, live, top, idle, win, w.suppressed) && w.rule == Some(raw[win])
            else w == Win(None, None)
  {
    WinnerIsBest(o, raw, screen, live);
    top := BestLeads(o, raw, screen, Anything);
    idle := BestLeads(o, raw, screen, AtRest);
    var capped := BestLeads(o, raw, screen, Capped);
    var working := BestLeads(o, raw, screen, AtWork);
    win := top;
    if Matching(o, raw, screen, Every) { win := PickIsChosen(o, raw, screen, live, top, idle, capped, working); }
    else { assert !Matching(o, raw, screen, Caps); }
  }

  lemma PickIsChosen(o: Oracle, raw: seq<Rule>, screen: Screen, live: Option<bool>, top: nat, idle: nat, capped: nat,
                     working: nat)
    returns (win: nat)
    requires Leads(o, raw, screen, Every, top)
    requires Matching(o, raw, screen, {AgentState.Idle}) ==> Leads(o, raw, screen, {AgentState.Idle}, idle)
    requires Matching(o, raw, screen, Caps) ==> Leads(o, raw, screen, Caps, capped)
    requires Matching(o, raw, screen, {AgentState.Working}) ==> Leads(o, raw, screen, {AgentState.Working}, working)
    ensures var best := First(o, raw, screen, {AgentState.Idle}, idle);
            var w := Pick(First(o, raw, screen, Caps, capped), Some(raw[top]),
                          First(o, raw, screen, {AgentState.Working}, working), best, live == Some(false),
                          Answered(o, best, Some(raw[top]), screen));
            Chosen(o, raw, screen, live, top, idle, win, w.suppressed) && w.rule == Some(raw[win])
  {
    win := top;
    if Matching(o, raw, screen, Caps) { win := capped; }
    else if raw[top].state.Blocked? {
      if live != Some(false) && Matching(o, raw, screen, {AgentState.Working}) { win := working; }
      else if Matching(o, raw, screen, {AgentState.Idle}) && AnswerBelow(o, raw[idle], raw[top], screen) {
        win := idle;
      }
    }
  }

  lemma {:induction false} EvaluationsAre(o: Oracle, rules: seq<Rule>, screen: Screen, k: nat)
    requires k < |rules|
    ensures Evidence(o, rules[k], screen, Evaluations(o, rules, screen)[k])
  {
    var front := rules[..|rules| - 1];
    if k < |front| { EvaluationsAre(o, front, screen, k); assert front[k] == rules[k]; }
  }

  /** The answer on a loaded manifest: idle by default when no rule matches, and otherwise what the chosen rule says,
      with a blocker that gave way named beside it. */
  lemma VerdictIs(o: Oracle, m: Manifest, raw: seq<Rule>, agent: string, screen: Screen, live: Option<bool>)
    returns (top: nat, idle: nat, win: nat)
    requires ParseRules(raw) == Some(m.rules)
    ensures var e := Classified(o, Loaded(m), agent, screen, live);
            && FromManifest(o, m, agent, screen, e)
            && if Matching(o, raw, screen, Every)
               then Chosen(o, raw, screen, live, top, idle, win, e.suppressed) && Blames(o, raw[win], screen, e)
               else
                 && e.claim.state == AgentState.Idle && e.claim.authority == Fallback && e.matched == None &&
                   e.blocker == None
                 && e.fallback == Some("default_known_agent_idle_fallback") && e.resumeAt == None &&
                   e.suppressed == None
  {
    top, idle, win := WinnerIsChosen(o, raw, screen, live);
    forall k | 0 <= k < |m.rules| ensures Evidence(o, m.rules[k], screen, Evaluations(o, m.rules, screen)[k]) {
      EvaluationsAre(o, m.rules, screen, k);
    }
  }

  /** Without a manifest the answer is idle, and says whether the manifest is unknown or could not be read. */
  lemma FallsBack(o: Oracle, load: Load, agent: string, screen: Screen, live: Option<bool>)
    requires !load.Loaded?
    ensures var e := Classified(o, load, agent, screen, live);
            && e.agent == agent && e.claim == Claim(AgentState.Idle, None, Fallback) && e.matched == None &&
              e.blocker == None
            && e.kind == None && e.version == None && e.rules == [] && !e.skipped && e.skipReason == None
            && e.resumeAt == None && e.suppressed == None
            && e.fallback ==
              Some(if load.Broken? then "manifest_error_idle_fallback" else "unknown_agent_idle_fallback")
            && e.warning == if load.Broken? then Some(load.warning) else None
  {
  }

  /** A matcher other than a regular expression hits a text exactly when it leaves evidence on some line of it. */
  lemma HitLeavesEvidence(o: Oracle, matcher: Matcher, text: Screen)
    requires text != [] && !matcher.kind.Regex?
    ensures Hits(o, matcher, text) <==> exists k :: 0 <= k < |text| && HitsAt(o, matcher, text, k)
  {
    if Hits(o, matcher, text) {
      if '\n' in matcher.value { assert HitsAt(o, matcher, text, |text| - 1); }
      else {
        var line :| line in text && o.inLine(matcher, line);
        var k :| 0 <= k < |text| && text[k] == line;
        assert HitsAt(o, matcher, text, k);
      }
    }
  }
}
