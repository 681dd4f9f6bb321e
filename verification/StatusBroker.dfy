/** The broker object of src/chitra/agent_runtime.py, which updates its fields in place. */
module StatusBroker {
  import opened Basics
  import opened Classifier
  import opened StatusWire
  import opened Broker
  import opened BrokerEffects

  class AgentStatusBroker {
    const world: World
    var statuses: map<string, PaneStatus>
    var lifecycle: map<string, Report>
    var events: seq<Event>
    var evidence: map<string, Freshness>
    var number: nat
    var frozen: bool

    ghost function Now(): State
      reads this
    {
      State(statuses, lifecycle, events, evidence, number, frozen)
    }

    constructor (w: World)
      ensures world == w && Now() == Empty
    {
      world := w;
      statuses, lifecycle, events, evidence, number, frozen := map[], map[], [], map[], 0, false;
    }

    method DoPublish(pane: string, place: Place, e: Explain, sha: string, now: string) returns (a: Answer)
      modifies this
      ensures Step(Now(), a) == Publish(old(Now()), pane, place, e, sha, now)
    {
      if pane in statuses && SameIdentity(statuses[pane], place, e.claim) { return Unchanged; }
      var revision := if pane in statuses then statuses[pane].revision + 1 else 1;
      var status := PaneStatus(pane, place.target, place.session, place.lane, place.agent, e.claim, now, revision,
                               place.socket, sha, e);
      statuses := statuses[pane := status];
      number := number + 1;
      var event := Event(number, status);
      events := Latest(events + [event]);
      a := Published(event);
    }

    method ReportAgent(op: Op, now: string) returns (a: Answer)
      requires op.ReportAgent?
      modifies this
      ensures Step(Now(), a) == Apply(world, old(Now()), op, now)
      ensures ReportLeaves(world, old(Now()), Now(), op, now)
    {
      ReportEffect(world, Now(), op, now);
      if !ReportArgumentsOk(op) || frozen { return Raised; }
      evidence := evidence - {op.pane};
      var existing := if op.pane in statuses then Some(statuses[op.pane]) else None;
      if SessionConflict(existing, op.session) { return Raised; }
      lifecycle := lifecycle[op.pane := Report(op.pane, op.session, op.source, op.agent, op.state, now)];
      a := DoPublish(op.pane, ReportPlace(existing, op.pane, op.agent, op.session),
                     IntegrationExplain(op.agent, op.state, op.source),
                     ShaOf(world, existing), now);
    }

    method ClearAgentAuthority(op: Op) returns (a: Answer)
      requires op.ClearAuthority?
      modifies this
      ensures Step(Now(), a) == Apply(world, old(Now()), op, "")
      ensures ReleaseLeaves(old(Now()), Now(), op, a == Released(true))
    {
      ReleaseEffect(Now(), op);
      if frozen { return Raised; }
      if op.pane !in lifecycle || (op.from.Some? && op.from.value != lifecycle[op.pane].source) {
        return Released(false);
      }
      lifecycle := lifecycle - {op.pane};
      evidence := evidence - {op.pane};
      a := Released(true);
    }

    /** The screen of a pane without an authority: a stale report is dropped and the repeats counted before it is
        classified. */
    method Judge(op: Op, sha: string) returns (e: Explain)
      requires op.Observe?
      modifies this
      ensures var seen := Seen(op.place.session, op.place.agent, sha);
              var latest := Refreshed(if op.pane in old(evidence) then Some(old(evidence)[op.pane]) else None, seen);
              && Now() == old(Now()).(lifecycle := old(lifecycle) - {op.pane},
                                      evidence := old(evidence)[op.pane := latest])
              && e == Classified(world.oracle, op.load, op.place.agent, op.screen, Liveness(latest.count))
    {
      lifecycle := lifecycle - {op.pane};
      var seen := Seen(op.place.session, op.place.agent, sha);
      var latest := Refreshed(if op.pane in evidence then Some(evidence[op.pane]) else None, seen);
      evidence := evidence[op.pane := latest];
      e := ClassifySnapshot(world.oracle, op.load, op.place.agent, op.screen, Liveness(latest.count));
    }

    method ObservePane(op: Op, now: string) returns (a: Answer)
      requires op.Observe?
      modifies this
      ensures Step(Now(), a) == Apply(world, old(Now()), op, now)
      ensures ObserveLeaves(world, old(Now()), Now(), op, now)
    {
      ObserveEffect(world, Now(), op, now);
      if frozen { return Raised; }
      var sha := world.hash(op.screen);
      var governed := op.pane in lifecycle &&
        (lifecycle[op.pane].session.None? || lifecycle[op.pane].session == op.place.session);
      var place, e;
      if governed {
        var report := lifecycle[op.pane];
        place, e := op.place.(agent := report.agent), IntegrationExplain(report.agent, report.state, report.source);
      } else {
        place := op.place;
        e := Judge(op, sha);
      }
      if op.pane in statuses && statuses[op.pane].claim.state.Done? && e.claim.state.Idle? { return Unchanged; }
      a := DoPublish(op.pane, place, e, sha, now);
    }

    method ReportCompletion(op: Op, now: string) returns (a: Answer)
      requires op.ReportCompletion?
      modifies this
      ensures Step(Now(), a) == Apply(world, old(Now()), op, now)
      ensures CompletionLeaves(world, old(Now()), Now(), op, now)
    {
      CompletionEffect(world, Now(), op, now);
      if frozen { return Raised; }
      var existing := if op.pane in statuses then Some(statuses[op.pane]) else None;
      var place := if existing.Some?
                   then Place(existing.value.target, Some(op.doneSession), existing.value.lane, op.agent,
                              existing.value.socket)
                   else Place(op.pane, Some(op.doneSession), op.doneSession, op.agent, None);
      a := DoPublish(op.pane, place, CompletionExplain(op.agent), ShaOf(world, existing), now);
    }

    method SetFrozen(on: bool)
      modifies this
      ensures Now() == Apply(world, old(Now()), if on then Freeze else Thaw, "").state
    {
      frozen := on;
    }

    method ImportValidated(v: Validated) returns (done: bool)
      modifies this
      ensures done <==> Import(old(Now()), v).Some?
      ensures Now() == if done then Import(old(Now()), v).value else old(Now())
    {
      if statuses != map[] || lifecycle != map[] || number != 0 { return false; }
      statuses, lifecycle, number := PaneMap(v.panes), ReportMap(v.reports), v.number;
      done := true;
    }
  }
}
