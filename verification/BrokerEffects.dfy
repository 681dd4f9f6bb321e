/** What every accepted call of the broker leaves, read off the stored fields before and after it. */
module BrokerEffects {
  import opened Basics
  import opened Classifier
  import opened StatusWire
  import opened Broker

  lemma PublishShows(s: State, pane: string, place: Place, e: Explain, sha: string, now: string)
    ensures Shows(s, Publish(s, pane, place, e, sha, now).state, pane, place, e, sha, now)
  {
  }

  lemma SettleShows(s: State, pane: string, place: Place, e: Explain, sha: string, now: string)
    ensures ShowsUnlessDone(s, Settle(s, pane, place, e, sha, now).state, pane, place, e, sha, now)
  {
    PublishShows(s, pane, place, e, sha, now);
  }

  /** Showing looks only at statuses, number and events. */
  lemma ShowsFrom(s: State, t: State, after: State, pane: string, place: Place, e: Explain, sha: string, now: string)
    requires s.statuses == t.statuses && s.number == t.number && s.events == t.events
    ensures Shows(s, after, pane, place, e, sha, now) == Shows(t, after, pane, place, e, sha, now)
    ensures ShowsUnlessDone(s, after, pane, place, e, sha, now) == ShowsUnlessDone(t, after, pane, place, e, sha, now)
  {
  }

  lemma PublishKeepsRest(s: State, pane: string, place: Place, e: Explain, sha: string, now: string)
    ensures var t := Publish(s, pane, place, e, sha, now).state;
            t.lifecycle == s.lifecycle && t.evidence == s.evidence && t.frozen == s.frozen
  {
  }

  lemma ReportEffect(w: World, s: State, op: Op, now: string)
    requires op.ReportAgent?
    ensures ReportLeaves(w, s, DoReport(w, s, op, now).state, op, now)
  {
    var existing := Existing(s, op.pane);
    if ReportArgumentsOk(op) && !s.frozen && !SessionConflict(existing, op.session) {
      var report := Report(op.pane, op.session, op.source, op.agent, op.state, now);
      var changed := s.(evidence := s.evidence - {op.pane}, lifecycle := s.lifecycle[op.pane := report]);
      var place, e := ReportPlace(existing, op.pane, op.agent, op.session), IntegrationExplain(op.agent, op.state,
          op.source);
      var after := DoReport(w, s, op, now).state;
      PublishShows(changed, op.pane, place, e, ShaOf(w, existing), now);
      PublishKeepsRest(changed, op.pane, place, e, ShaOf(w, existing), now);
      ShowsFrom(s, changed, after, op.pane, place, e, ShaOf(w, existing), now);
      assert Integrated(e, op.agent, op.state, op.source);
    }
  }

  lemma CompletionEffect(w: World, s: State, op: Op, now: string)
    requires op.ReportCompletion?
    ensures CompletionLeaves(w, s, DoComplete(w, s, op, now).state, op, now)
  {
    var existing := Existing(s, op.pane);
    var place := if existing.Some?
                 then Place(existing.value.target, Some(op.doneSession), existing.value.lane, op.agent,
                            existing.value.socket)
                 else Place(op.pane, Some(op.doneSession), op.doneSession, op.agent, None);
    PublishShows(s, op.pane, place, CompletionExplain(op.agent), ShaOf(w, existing), now);
    PublishKeepsRest(s, op.pane, place, CompletionExplain(op.agent), ShaOf(w, existing), now);
    assert Completed(CompletionExplain(op.agent), op.agent);
  }

  lemma SettleKeepsRest(s: State, pane: string, place: Place, e: Explain, sha: string, now: string)
    ensures var t := Settle(s, pane, place, e, sha, now).state;
            t.lifecycle == s.lifecycle && t.evidence == s.evidence && t.frozen == s.frozen
  {
  }

  lemma GovernedEffect(w: World, s: State, op: Op, now: string)
    requires op.Observe? && op.pane in s.lifecycle
    ensures ObservedUnderReport(w, s, ObserveGoverned(w, s, op, now).state, op, now)
    ensures ObserveGoverned(w, s, op, now).state.frozen == s.frozen
  {
    var report := s.lifecycle[op.pane];
    var e := IntegrationExplain(report.agent, report.state, report.source);
    SettleShows(s, op.pane, op.place.(agent := report.agent), e, w.hash(op.screen), now);
    SettleKeepsRest(s, op.pane, op.place.(agent := report.agent), e, w.hash(op.screen), now);
    assert Integrated(e, report.agent, report.state, report.source);
  }

  lemma ScreenEffect(w: World, s: State, op: Op, now: string)
    requires op.Observe?
    ensures ObservedOnScreen(w, s, ObserveScreen(w, s, op, now).state, op, now)
    ensures ObserveScreen(w, s, op, now).state.frozen == s.frozen
  {
    var sha := w.hash(op.screen);
    var latest := Refreshed(EvidenceOf(s, op.pane), Seen(op.place.session, op.place.agent, sha));
    var e := Classified(w.oracle, op.load, op.place.agent, op.screen, Liveness(latest.count));
    var changed := s.(lifecycle := s.lifecycle - {op.pane}, evidence := s.evidence[op.pane := latest]);
    var after := ObserveScreen(w, s, op, now).state;
    SettleShows(changed, op.pane, op.place, e, sha, now);
    SettleKeepsRest(changed, op.pane, op.place, e, sha, now);
    ShowsFrom(s, changed, after, op.pane, op.place, e, sha, now);
  }

  lemma StepLeaves(w: World, s: State, op: Op, now: string)
    ensures Leaves(w, s, Apply(w, s, op, now).state, op, now)
  {
    match op
    case ReportAgent(_, _, _, _, _) => ReportEffect(w, s, op, now);
    case ReportCompletion(_, _, _) => CompletionEffect(w, s, op, now);
    case Observe(_, _, _, _) => ObserveEffect(w, s, op, now);
    case ClearAuthority(_, _) => ReleaseEffect(s, op);
    case _ =>
  }

  lemma ObserveEffect(w: World, s: State, op: Op, now: string)
    requires op.Observe?
    ensures ObserveLeaves(w, s, DoObserve(w, s, op, now).state, op, now)
  {
    if s.frozen {
    } else if Governs(s, op.pane, op.place.session) { GovernedEffect(w, s, op, now); }
    else { ScreenEffect(w, s, op, now); }
  }

  lemma ReleaseEffect(s: State, op: Op)
    requires op.ClearAuthority?
    ensures var after := DoClear(s, op).state; ReleaseLeaves(s, after, op, after != s)
  {
    if op.pane in s.lifecycle { assert op.pane !in (s.lifecycle - {op.pane}); }
  }
}
