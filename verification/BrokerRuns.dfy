/** What every run of the broker keeps, with well-formed inputs and from any empty or imported start. */
module BrokerRuns {
  import opened Basics
  import opened Classifier
  import opened StatusWire
  import opened TextOrder
  import opened Broker

  // ---------------------------------------------------------------- well-formed inputs

  ghost predicate WorldOk(w: World) {
    && (forall screen :: Sha256(w.hash(screen)))
    && (forall screen :: OptText(w.oracle.resumeAt(screen)))
  }

  /** The ordered rules of some manifest that the parser accepted. */
  ghost predicate Parsed(rules: seq<Rule>) { exists raw :: ParseRules(raw) == Some(rules) }

  ghost predicate LoadOk(load: Load) {
    match load
    case Broken(warning) => warning != ""
    case Missing => true
    case Loaded(m) => m.version != "" && m.source != "" && Parsed(m.rules)
  }

  predicate PlaceOk(p: Place) {
    p.target != "" && OptText(p.session) && p.lane != "" && AgentId(p.agent) && OptText(p.socket)
  }

  ghost predicate OpOk(op: Op) {
    match op
    case ReportAgent(_, _, _, _, session) => OptText(session)
    case Observe(pane, place, _, load) => PaneId(pane) && PlaceOk(place) && LoadOk(load)
    case ReportCompletion(pane, session, agent) => PaneId(pane) && session != "" && AgentId(agent)
    case _ => true
  }

  /** What the manifest parser accepts is what the handoff validator later relies on. */
  lemma ParsedRulesFit(rules: seq<Rule>)
    requires Parsed(rules)
    ensures |rules| <= 128 && forall r :: r in rules ==> RuleOk(r)
  {
    var raw :| ParseRules(raw) == Some(rules);
    ParsedRulesOk(raw);
  }

  // ---------------------------------------------------------------- explanations are well formed

  predicate Ready(e: Explain, agent: string) {
    ExplainOk(e) && e.agent == agent && (e.claim.authority.Manifested? && e.claim.state.Blocked? ==> e.blocker.Some?)
  }

  lemma EvaluateOk(o: Oracle, r: Rule, screen: Screen)
    requires RuleOk(r)
    ensures EvaluationOk(Evaluate(o, r, screen))
  {
  }

  lemma {:induction false} EvaluationsFit(o: Oracle, rules: seq<Rule>, screen: Screen)
    requires forall r :: r in rules ==> RuleOk(r)
    ensures forall e :: e in Evaluations(o, rules, screen) ==> EvaluationOk(e)
  {
    if rules != [] {
      EvaluationsFit(o, rules[..|rules| - 1], screen);
      EvaluateOk(o, rules[|rules| - 1], screen);
    }
  }

  lemma SuppressedNamed(o: Oracle, rules: seq<Rule>, screen: Screen, live: Option<bool>)
    requires forall r :: r in rules ==> RuleOk(r)
    ensures OptText(Winner(o, rules, screen, live).suppressed)
  {
    FirstPasses(rules, Seeking(o, screen, Anything));
  }

  lemma ToldReady(o: Oracle, m: Manifest, agent: string, screen: Screen, evaluations: seq<Evaluation>, win: Win)
    requires m.version != "" && m.source != "" && agent != "" && EvaluationsOk(evaluations)
    requires OptText(o.resumeAt(if win.rule.Some? then RegionOf(win.rule.value, screen) else []))
    requires win.rule.Some? ==> RuleOk(win.rule.value)
    requires OptText(win.suppressed)
    ensures Ready(Told(o, m, agent, screen, evaluations, win), agent)
  {
  }

  lemma ClassifiedReady(w: World, load: Load, agent: string, screen: Screen, live: Option<bool>)
    requires WorldOk(w) && LoadOk(load) && AgentId(agent)
    ensures Ready(Classified(w.oracle, load, agent, screen, live), agent)
  {
    if load.Loaded? {
      var o, rules := w.oracle, load.manifest.rules;
      var win := Winner(o, rules, screen, live);
      ParsedRulesFit(rules);
      EvaluationsFit(o, rules, screen);
      WinnerInRules(o, rules, screen, live);
      SuppressedNamed(o, rules, screen, live);
      ToldReady(o, load.manifest, agent, screen, Evaluations(o, rules, screen), win);
    }
  }

  // ---------------------------------------------------------------- the statuses stay well formed

  predicate PaneFits(s: State, id: string)
    requires id in s.statuses
  {
    var p := s.statuses[id];
    p.id == id && PaneOk(p) && p.revision <= s.number
  }

  predicate PanesOk(s: State) { forall id :: id in s.statuses ==> PaneFits(s, id) }

  lemma PublishedPaneOk(s: State, pane: string, place: Place, e: Explain, sha: string, now: string)
    requires PanesOk(s) && PaneId(pane) && PlaceOk(place) && Ready(e, place.agent) && Sha256(sha) && now != ""
    ensures var p := NextStatus(s, pane, place, e, sha, now); p.id == pane && PaneOk(p) && p.revision <= s.number + 1
  {
    if pane in s.statuses { assert PaneFits(s, pane); }
  }

  lemma PublishKeepsPanes(s: State, pane: string, place: Place, e: Explain, sha: string, now: string)
    requires PanesOk(s) && PaneId(pane) && PlaceOk(place) && Ready(e, place.agent) && Sha256(sha) && now != ""
    ensures PanesOk(Publish(s, pane, place, e, sha, now).state)
  {
    PublishedPaneOk(s, pane, place, e, sha, now);
    var next := Publish(s, pane, place, e, sha, now).state;
    forall id | id in next.statuses ensures PaneFits(next, id) {
      if id in s.statuses { assert PaneFits(s, id); }
    }
  }

  lemma SamePanesOk(s: State, t: State)
    requires PanesOk(s) && t.statuses == s.statuses && t.number == s.number
    ensures PanesOk(t)
  {
    forall id | id in t.statuses ensures PaneFits(t, id) { assert PaneFits(s, id); }
  }

  lemma ReportPlaceOk(s: State, op: Op)
    requires PanesOk(s) && op.ReportAgent? && OpOk(op) && ReportArgumentsOk(op)
    ensures PlaceOk(ReportPlace(Existing(s, op.pane), op.pane, op.agent, op.session))
    ensures ReportPlace(Existing(s, op.pane), op.pane, op.agent, op.session).agent == op.agent
  {
    if op.pane in s.statuses { assert PaneFits(s, op.pane); }
  }

  lemma ReportKeepsPanes(w: World, s: State, op: Op, now: string)
    requires WorldOk(w) && PanesOk(s) && op.ReportAgent? && OpOk(op) && now != ""
    ensures PanesOk(DoReport(w, s, op, now).state)
  {
    var existing := Existing(s, op.pane);
    var cleared := s.(evidence := s.evidence - {op.pane});
    SamePanesOk(s, cleared);
    if ReportArgumentsOk(op) && !s.frozen && !SessionConflict(existing, op.session) {
      var report := Report(op.pane, op.session, op.source, op.agent, op.state, now);
      var changed := cleared.(lifecycle := s.lifecycle[op.pane := report]);
      SamePanesOk(s, changed);
      ReportPlaceOk(s, op);
      if existing.Some? { assert PaneFits(s, op.pane); }
      PublishKeepsPanes(changed, op.pane, ReportPlace(existing, op.pane, op.agent, op.session),
                        IntegrationExplain(op.agent, op.state, op.source), ShaOf(w, existing), now);
    }
  }

  lemma ScreenKeepsPanes(w: World, s: State, op: Op, now: string)
    requires WorldOk(w) && PanesOk(s) && op.Observe? && OpOk(op) && now != ""
    ensures PanesOk(ObserveScreen(w, s, op, now).state)
  {
    var sha := w.hash(op.screen);
    var latest := Refreshed(EvidenceOf(s, op.pane), Seen(op.place.session, op.place.agent, sha));
    var live := Liveness(latest.count);
    var e := Classified(w.oracle, op.load, op.place.agent, op.screen, live);
    ClassifiedReady(w, op.load, op.place.agent, op.screen, live);
    var changed := s.(lifecycle := s.lifecycle - {op.pane}, evidence := s.evidence[op.pane := latest]);
    SamePanesOk(s, changed);
    PublishKeepsPanes(changed, op.pane, op.place, e, sha, now);
  }

  lemma GovernedKeepsPanes(w: World, s: State, op: Op, now: string)
    requires WorldOk(w) && PanesOk(s) && op.Observe? && OpOk(op) && now != "" && op.pane in s.lifecycle
    requires ReportOk(s.lifecycle[op.pane])
    ensures PanesOk(ObserveGoverned(w, s, op, now).state)
  {
    var r := s.lifecycle[op.pane];
    PublishKeepsPanes(s, op.pane, op.place.(agent := r.agent), IntegrationExplain(r.agent, r.state, r.source),
                      w.hash(op.screen), now);
  }

  lemma CompleteKeepsPanes(w: World, s: State, op: Op, now: string)
    requires WorldOk(w) && PanesOk(s) && op.ReportCompletion? && OpOk(op) && now != ""
    ensures PanesOk(DoComplete(w, s, op, now).state)
  {
    var existing := Existing(s, op.pane);
    if existing.Some? { assert PaneFits(s, op.pane); }
    var place := if existing.Some?
                 then Place(existing.value.target, Some(op.doneSession), existing.value.lane, op.agent,
                            existing.value.socket)
                 else Place(op.pane, Some(op.doneSession), op.doneSession, op.agent, None);
    PublishKeepsPanes(s, op.pane, place, CompletionExplain(op.agent), ShaOf(w, existing), now);
  }

  // ---------------------------------------------------------------- reports keep agreeing with statuses

  predicate ReportFits(s: State, id: string)
    requires id in s.lifecycle
  {
    var r := s.lifecycle[id];
    r.pane == id && ReportOk(r) && id in s.statuses && Agrees(s.statuses[id], r)
  }

  predicate ReportsOk(s: State) { forall id :: id in s.lifecycle ==> ReportFits(s, id) }

  /** The pane's own report, if any, agrees with what is published. */
  predicate Fitting(s: State, pane: string, place: Place, claim: Claim) {
    pane in s.lifecycle ==>
      var r := s.lifecycle[pane];
      r.pane == pane && ReportOk(r)
      && (claim.authority.Integration? ==>
          place.agent == r.agent && claim.state == r.state && claim.source == Some(r.source) &&
            (r.session.None? || r.session == place.session))
  }

  lemma PublishKeepsReports(s: State, pane: string, place: Place, e: Explain, sha: string, now: string)
    requires Fitting(s, pane, place, e.claim)
    requires forall id :: id in s.lifecycle && id != pane ==> ReportFits(s, id)
    ensures ReportsOk(Publish(s, pane, place, e, sha, now).state)
  {
    var next := Publish(s, pane, place, e, sha, now).state;
    forall id | id in next.lifecycle ensures ReportFits(next, id) {
      if id != pane { assert ReportFits(s, id); }
    }
  }

  lemma ReportKeepsReports(w: World, s: State, op: Op, now: string)
    requires ReportsOk(s) && op.ReportAgent? && OpOk(op) && now != ""
    ensures ReportsOk(DoReport(w, s, op, now).state)
  {
    var existing := Existing(s, op.pane);
    var cleared := s.(evidence := s.evidence - {op.pane});
    forall id | id in s.lifecycle ensures ReportFits(cleared, id) { assert ReportFits(s, id); }
    if ReportArgumentsOk(op) && !s.frozen && !SessionConflict(existing, op.session) {
      var report := Report(op.pane, op.session, op.source, op.agent, op.state, now);
      var changed := cleared.(lifecycle := s.lifecycle[op.pane := report]);
      forall id | id in changed.lifecycle && id != op.pane ensures ReportFits(changed, id) { assert ReportFits(s, id); }
      PublishKeepsReports(changed, op.pane, ReportPlace(existing, op.pane, op.agent, op.session),
                          IntegrationExplain(op.agent, op.state, op.source), ShaOf(w, existing), now);
    }
  }

  lemma ScreenKeepsReports(w: World, s: State, op: Op, now: string)
    requires ReportsOk(s) && op.Observe?
    ensures ReportsOk(ObserveScreen(w, s, op, now).state)
  {
    var sha := w.hash(op.screen);
    var latest := Refreshed(EvidenceOf(s, op.pane), Seen(op.place.session, op.place.agent, sha));
    var e := Classified(w.oracle, op.load, op.place.agent, op.screen, Liveness(latest.count));
    var changed := s.(lifecycle := s.lifecycle - {op.pane}, evidence := s.evidence[op.pane := latest]);
    forall id | id in changed.lifecycle ensures ReportFits(changed, id) { assert ReportFits(s, id); }
    PublishKeepsReports(changed, op.pane, op.place, e, sha, now);
  }

  lemma GovernedKeepsReports(w: World, s: State, op: Op, now: string)
    requires ReportsOk(s) && op.Observe? && Governs(s, op.pane, op.place.session)
    ensures ReportsOk(ObserveGoverned(w, s, op, now).state)
  {
    assert ReportFits(s, op.pane);
    var r := s.lifecycle[op.pane];
    PublishKeepsReports(s, op.pane, op.place.(agent := r.agent), IntegrationExplain(r.agent, r.state, r.source),
                        w.hash(op.screen), now);
  }

  lemma CompleteKeepsReports(w: World, s: State, op: Op, now: string)
    requires ReportsOk(s) && op.ReportCompletion?
    ensures ReportsOk(DoComplete(w, s, op, now).state)
  {
    if op.pane in s.lifecycle { assert ReportFits(s, op.pane); }
    var existing := Existing(s, op.pane);
    var place := if existing.Some?
                 then Place(existing.value.target, Some(op.doneSession), existing.value.lane, op.agent,
                            existing.value.socket)
                 else Place(op.pane, Some(op.doneSession), op.doneSession, op.agent, None);
    PublishKeepsReports(s, op.pane, place, CompletionExplain(op.agent), ShaOf(w, existing), now);
  }

  lemma ClearKeeps(s: State, op: Op)
    requires PanesOk(s) && ReportsOk(s) && op.ClearAuthority?
    ensures PanesOk(DoClear(s, op).state) && ReportsOk(DoClear(s, op).state)
  {
    var next := DoClear(s, op).state;
    SamePanesOk(s, next);
    forall id | id in next.lifecycle ensures ReportFits(next, id) { assert ReportFits(s, id); }
  }

  predicate Sound(s: State) { PanesOk(s) && ReportsOk(s) }

  lemma StepKeepsSound(w: World, s: State, op: Op, now: string)
    requires WorldOk(w) && Sound(s) && OpOk(op) && now != ""
    ensures Sound(Apply(w, s, op, now).state)
  {
    match op
    case ReportAgent(_, _, _, _, _) =>
      ReportKeepsPanes(w, s, op, now);
      ReportKeepsReports(w, s, op, now);
    case ClearAuthority(_, _) => ClearKeeps(s, op);
    case Observe(_, _, _, _) => ObserveKeeps(w, s, op, now);
    case ReportCompletion(_, _, _) =>
      CompleteKeepsPanes(w, s, op, now);
      CompleteKeepsReports(w, s, op, now);
    case Freeze => ToggleKeeps(s, true);
    case Thaw => ToggleKeeps(s, false);
  }

  lemma ObserveKeeps(w: World, s: State, op: Op, now: string)
    requires WorldOk(w) && Sound(s) && op.Observe? && OpOk(op) && now != ""
    ensures Sound(DoObserve(w, s, op, now).state)
  {
    if Governs(s, op.pane, op.place.session) {
      assert ReportFits(s, op.pane);
      GovernedKeepsPanes(w, s, op, now);
      GovernedKeepsReports(w, s, op, now);
    } else {
      ScreenKeepsPanes(w, s, op, now);
      ScreenKeepsReports(w, s, op, now);
    }
  }

  lemma ToggleKeeps(s: State, on: bool)
    requires Sound(s)
    ensures Sound(s.(frozen := on))
  {
    var next := s.(frozen := on);
    SamePanesOk(s, next);
    forall id | id in next.lifecycle ensures ReportFits(next, id) { assert ReportFits(s, id); }
  }
}
