/** The status broker of src/chitra/agent_runtime.py: what each operation does to its state, and the handoff
    to a replacement process. */
module Broker {
  import opened Basics
  import opened Classifier
  import opened StatusWire
  import opened TextOrder

  const MaxHistory := 1024
  const StabilityThreshold := 2

  datatype Event = Event(number: nat, pane: PaneStatus)

  /** How often the same snapshot was seen in a row, for one pane, session and agent. */
  datatype Freshness = Freshness(seen: Seen, count: nat)
  datatype Seen = Seen(session: Option<string>, agent: string, sha: string)

  datatype State = State(statuses: map<string, PaneStatus>, lifecycle: map<string, Report>, events: seq<Event>,
                         evidence: map<string, Freshness>, number: nat, frozen: bool)

  const Empty := State(map[], map[], [], map[], 0, false)

  datatype World = World(oracle: Oracle, hash: Screen -> string)

  datatype Op =
    | ReportAgent(pane: string, source: string, agent: string, state: AgentState, session: Option<string>)
    | ClearAuthority(pane: string, from: Option<string>)
    | Observe(pane: string, place: Place, screen: Screen, load: Load)
    | ReportCompletion(pane: string, doneSession: string, agent: string)
    | Freeze
    | Thaw

  /** Where a pane is and who runs in it. */
  datatype Place = Place(target: string, session: Option<string>, lane: string, agent: string, socket: Option<string>)

  datatype Answer = Raised | Unchanged | Published(event: Event) | Released(done: bool)
  datatype Step = Step(state: State, answer: Answer)

  // ---------------------------------------------------------------- publishing

  predicate SameIdentity(p: PaneStatus, place: Place, claim: Claim) {
    Place(p.target, p.session, p.lane, p.agent, p.socket) == place && p.claim == claim
  }

  function Latest(events: seq<Event>): (r: seq<Event>)
    ensures |r| <= MaxHistory && |r| <= |events| && r == events[|events| - |r|..]
  {
    if |events| > MaxHistory then events[|events| - MaxHistory..] else events
  }

  function NextStatus(s: State, pane: string, place: Place, e: Explain, sha: string, now: string): PaneStatus {
    PaneStatus(pane, place.target, place.session, place.lane, place.agent, e.claim, now,
               if pane in s.statuses then s.statuses[pane].revision + 1 else 1, place.socket, sha, e)
  }

  /** A status with the same identity as the current one is not published again. */
  function Publish(s: State, pane: string, place: Place, e: Explain, sha: string, now: string): Step {
    if pane in s.statuses && SameIdentity(s.statuses[pane], place, e.claim) then Step(s, Unchanged)
    else
      var status := NextStatus(s, pane, place, e, sha, now);
      var event := Event(s.number + 1, status);
      Step(s.(statuses := s.statuses[pane := status], number := s.number + 1, events := Latest(s.events + [event])),
           Published(event))
  }

  function IntegrationExplain(agent: string, state: AgentState, source: string): Explain {
    Explain(agent, Claim(state, Some(source), Integration), Some(FromIntegration), None, None, None, None,
            Some("integration_authoritative"), true, [],
            None, None, None)
  }

  function CompletionExplain(agent: string): Explain {
    Explain(agent, Claim(Done, Some("chitra:completion_gate"), Completion), Some(Internal), None, None, None, None,
            Some("completion_gate_authoritative"), true, [], None, None, None)
  }

  // ---------------------------------------------------------------- the operations

  predicate ReportArgumentsOk(op: Op)
    requires op.ReportAgent?
  {
    PaneId(op.pane) && SourceId(op.source) && AgentId(op.agent) && ReportState(op.state)
  }

  function Existing(s: State, pane: string): Option<PaneStatus> {
    if pane in s.statuses then Some(s.statuses[pane]) else None
  }

  /** The session an integration names must not contradict the observed one. */
  predicate SessionConflict(existing: Option<PaneStatus>, session: Option<string>) {
    session.Some? && existing.Some? && existing.value.session.Some? && existing.value.session != session
  }

  function ReportPlace(existing: Option<PaneStatus>, pane: string, agent: string, session: Option<string>): Place {
    match existing
    case None => Place(pane, session, if session.Some? && session.value != "" then session.value else pane, agent, None)
    case Some(p) => Place(p.target, if session.Some? then session else p.session, p.lane, agent, p.socket)
  }

  function ShaOf(w: World, existing: Option<PaneStatus>): string {
    if existing.Some? then existing.value.sha else w.hash([])
  }

  function DoReport(w: World, s: State, op: Op, now: string): Step
    requires op.ReportAgent?
  {
    var existing := Existing(s, op.pane);
    var cleared := s.(evidence := s.evidence - {op.pane});
    if !ReportArgumentsOk(op) || s.frozen then Step(s, Raised)
    else if SessionConflict(existing, op.session) then Step(cleared, Raised)
    else
      var report := Report(op.pane, op.session, op.source, op.agent, op.state, now);
      Publish(cleared.(lifecycle := s.lifecycle[op.pane := report]), op.pane,
              ReportPlace(existing, op.pane, op.agent, op.session),
              IntegrationExplain(op.agent, op.state, op.source), ShaOf(w, existing), now)
  }

  function DoClear(s: State, op: Op): Step
    requires op.ClearAuthority?
  {
    if s.frozen then Step(s, Raised)
    else if op.pane !in s.lifecycle || (op.from.Some? && op.from.value != s.lifecycle[op.pane].source)
         then Step(s, Released(false))
    else Step(s.(lifecycle := s.lifecycle - {op.pane}, evidence := s.evidence - {op.pane}), Released(true))
  }

  /** The report still speaks for the pane: it names no session or the observed one. */
  predicate Governs(s: State, pane: string, session: Option<string>) {
    pane in s.lifecycle && (s.lifecycle[pane].session.None? || s.lifecycle[pane].session == session)
  }

  function Refreshed(previous: Option<Freshness>, seen: Seen): Freshness {
    if previous.Some? && previous.value.seen == seen then Freshness(seen, previous.value.count + 1)
    else Freshness(seen, 1)
  }

  function EvidenceOf(s: State, pane: string): Option<Freshness> {
    if pane in s.evidence then Some(s.evidence[pane]) else None
  }

  function Liveness(count: nat): Option<bool> { if count >= StabilityThreshold then Some(false) else None }

  /** A finished pane that only looks idle stays done. */
  function Settle(s: State, pane: string, place: Place, e: Explain, sha: string, now: string): Step {
    if pane in s.statuses && s.statuses[pane].claim.state.Done? && e.claim.state.Idle? then Step(s, Unchanged)
    else Publish(s, pane, place, e, sha, now)
  }

  function ObserveGoverned(w: World, s: State, op: Op, now: string): Step
    requires op.Observe? && op.pane in s.lifecycle
  {
    var report := s.lifecycle[op.pane];
    Settle(s, op.pane, op.place.(agent := report.agent), IntegrationExplain(report.agent, report.state, report.source),
           w.hash(op.screen), now)
  }

  function ObserveScreen(w: World, s: State, op: Op, now: string): Step
    requires op.Observe?
  {
    var sha := w.hash(op.screen);
    var latest := Refreshed(EvidenceOf(s, op.pane), Seen(op.place.session, op.place.agent, sha));
    var e := Classified(w.oracle, op.load, op.place.agent, op.screen, Liveness(latest.count));
    Settle(s.(lifecycle := s.lifecycle - {op.pane}, evidence := s.evidence[op.pane := latest]), op.pane, op.place, e,
           sha, now)
  }

  function DoObserve(w: World, s: State, op: Op, now: string): Step
    requires op.Observe?
  {
    if s.frozen then Step(s, Raised)
    else if Governs(s, op.pane, op.place.session) then ObserveGoverned(w, s, op, now)
    else ObserveScreen(w, s, op, now)
  }

  function DoComplete(w: World, s: State, op: Op, now: string): Step
    requires op.ReportCompletion?
  {
    var existing := Existing(s, op.pane);
    var place := if existing.Some?
                 then Place(existing.value.target, Some(op.doneSession), existing.value.lane, op.agent,
                            existing.value.socket)
                 else Place(op.pane, Some(op.doneSession), op.doneSession, op.agent, None);
    if s.frozen then Step(s, Raised)
    else Publish(s, op.pane, place, CompletionExplain(op.agent), ShaOf(w, existing), now)
  }

  function Apply(w: World, s: State, op: Op, now: string): Step {
    match op
    case ReportAgent(_, _, _, _, _) => DoReport(w, s, op, now)
    case ClearAuthority(_, _) => DoClear(s, op)
    case Observe(_, _, _, _) => DoObserve(w, s, op, now)
    case ReportCompletion(_, _, _) => DoComplete(w, s, op, now)
    case Freeze => Step(s.(frozen := true), Unchanged)
    case Thaw => Step(s.(frozen := false), Unchanged)
  }

  // ---------------------------------------------------------------- what the operations leave, on the fields alone

  /** Only this pane's status may differ. */
  predicate OthersKept(before: map<string, PaneStatus>, after: map<string, PaneStatus>, pane: string) {
    && (forall id :: id in before && id != pane ==> id in after && after[id] == before[id])
    && (forall id :: id in after && id != pane ==> id in before)
  }

  /** The pane shows this place, claim and explanation. Its status is untouched if it already showed this place and
      claim; otherwise it is a new one, one revision on, numbered and published. */
  predicate Shows(before: State, after: State, pane: string, place: Place, e: Explain, sha: string, now: string) {
    && OthersKept(before.statuses, after.statuses, pane) && pane in after.statuses
    && var p := after.statuses[pane];
       && p.target == place.target && p.session == place.session && p.lane == place.lane && p.agent == place.agent
       && p.socket == place.socket && p.claim == e.claim
       && var known := pane in before.statuses;
          if known && before.statuses[pane].target == place.target && before.statuses[pane].session == place.session
             && before.statuses[pane].lane == place.lane && before.statuses[pane].agent == place.agent
             && before.statuses[pane].socket == place.socket && before.statuses[pane].claim == e.claim
          then p == before.statuses[pane] && after.number == before.number && after.events == before.events
          else
            && p.id == pane && p.revision == (if known then before.statuses[pane].revision + 1 else 1)
            && p.observedAt == now && p.sha == sha && p.explain == e
            && after.number == before.number + 1 && after.events != [] &&
              after.events[|after.events| - 1] == Event(after.number, p)
  }

  predicate SameShown(before: State, after: State) {
    after.statuses == before.statuses && after.number == before.number && after.events == before.events
  }

  /** A finished pane stays done when it only looks idle; otherwise it shows what was seen. */
  predicate ShowsUnlessDone(before: State, after: State, pane: string, place: Place, e: Explain, sha: string,
                            now: string) {
    if pane in before.statuses && before.statuses[pane].claim.state == Done && e.claim.state == Idle
    then SameShown(before, after)
    else Shows(before, after, pane, place, e, sha, now)
  }

  /** An integration's report shows its own agent, state and source, and skips the screen. */
  predicate Integrated(e: Explain, agent: string, state: AgentState, source: string) {
    && e.agent == agent && e.claim == Claim(state, Some(source), Integration) && e.kind == Some(FromIntegration)
    && SkipsScreen(e) && e.skipReason == Some("integration_authoritative")
  }

  predicate SkipsScreen(e: Explain) {
    && e.skipped && e.rules == [] && e.version == None && e.matched == None && e.blocker == None && e.fallback == None
    && e.warning == None && e.resumeAt == None && e.suppressed == None
  }

  predicate Completed(e: Explain, agent: string) {
    && e.agent == agent && e.claim == Claim(Done, Some("chitra:completion_gate"), Completion) &&
      e.kind == Some(Internal)
    && SkipsScreen(e) && e.skipReason == Some("completion_gate_authoritative")
  }

  /** The report governs the pane while it names no session or the observed one. */
  ghost predicate ObservedUnderReport(w: World, before: State, after: State, op: Op, now: string)
    requires op.Observe? && op.pane in before.lifecycle
  {
    var report := before.lifecycle[op.pane];
    && after.lifecycle == before.lifecycle && after.evidence == before.evidence
    && var place := Place(op.place.target, op.place.session, op.place.lane, report.agent, op.place.socket);
       exists e :: Integrated(e, report.agent, report.state, report.source)
                   && ShowsUnlessDone(before, after, op.pane, place, e, w.hash(op.screen), now)
  }

  /** Otherwise the report is dropped, the observation is counted, and the classifier decides, told that the screen is
      stale when the count has reached two. */
  predicate ObservedOnScreen(w: World, before: State, after: State, op: Op, now: string)
    requires op.Observe?
  {
    var seen := Seen(op.place.session, op.place.agent, w.hash(op.screen));
    && after.lifecycle == before.lifecycle - {op.pane} && op.pane in after.evidence
    && after.evidence == before.evidence[op.pane := after.evidence[op.pane]]
    && after.evidence[op.pane].seen == seen
    && after.evidence[op.pane].count ==
         (if op.pane in before.evidence &&
          before.evidence[op.pane].seen == seen then before.evidence[op.pane].count + 1 else 1)
    && var live := if after.evidence[op.pane].count >= 2 then Some(false) else None;
       ShowsUnlessDone(before, after, op.pane, op.place, Classified(w.oracle, op.load, op.place.agent, op.screen, live),
                       w.hash(op.screen), now)
  }

  ghost predicate ObserveLeaves(w: World, before: State, after: State, op: Op, now: string)
    requires op.Observe?
  {
    && after.frozen == before.frozen
    && if before.frozen then after == before
       else if op.pane in before.lifecycle
               && (before.lifecycle[op.pane].session == None || before.lifecycle[op.pane].session == op.place.session)
       then ObservedUnderReport(w, before, after, op, now)
       else ObservedOnScreen(w, before, after, op, now)
  }

  /** Accepted, a report is on file, the freshness count is dropped, and the pane shows the report at its known place; a
      session that contradicts the observed one only drops the count. */
  ghost predicate ReportLeaves(w: World, before: State, after: State, op: Op, now: string)
    requires op.ReportAgent?
  {
    && after.frozen == before.frozen
    && if before.frozen || !PaneId(op.pane) || !SourceId(op.source) || !AgentId(op.agent) ||
      !ReportState(op.state) then after == before
       else
         && after.evidence == before.evidence - {op.pane}
         && var known := op.pane in before.statuses;
            if known && op.session.Some? && before.statuses[op.pane].session.Some? &&
              before.statuses[op.pane].session != op.session
            then SameShown(before, after) && after.lifecycle == before.lifecycle
            else
              && after.lifecycle ==
                before.lifecycle[op.pane := Report(op.pane, op.session, op.source, op.agent, op.state, now)]
              && var place :=
                   if known then
                     var p := before.statuses[op.pane];
                     Place(p.target, if op.session.Some? then op.session else p.session, p.lane, op.agent, p.socket)
                   else Place(op.pane, op.session,
                              if op.session.Some? && op.session.value != "" then op.session.value
                              else op.pane, op.agent, None);
                 var sha := if known then before.statuses[op.pane].sha else w.hash([]);
                 exists e :: Integrated(e, op.agent, op.state, op.source) &&
                   Shows(before, after, op.pane, place, e, sha, now)
  }

  /** A completion shows done, whatever was shown before, and touches neither reports nor freshness. */
  ghost predicate CompletionLeaves(w: World, before: State, after: State, op: Op, now: string)
    requires op.ReportCompletion?
  {
    && after.frozen == before.frozen && after.lifecycle == before.lifecycle && after.evidence == before.evidence
    && if before.frozen then after == before
       else
         var known := op.pane in before.statuses;
         var place := if known
                      then Place(before.statuses[op.pane].target, Some(op.doneSession), before.statuses[op.pane].lane,
                                 op.agent, before.statuses[op.pane].socket)
                      else Place(op.pane, Some(op.doneSession), op.doneSession, op.agent, None);
         var sha := if known then before.statuses[op.pane].sha else w.hash([]);
         exists e :: Completed(e, op.agent) && Shows(before, after, op.pane, place, e, sha, now)
  }

  /** A release removes the pane's report and its freshness count when there is one from that source, and shows
      nothing new. */
  predicate ReleaseLeaves(before: State, after: State, op: Op, done: bool)
    requires op.ClearAuthority?
  {
    && SameShown(before, after) && after.frozen == before.frozen
    && (done <==>
        && !before.frozen && op.pane in before.lifecycle
        && (op.from == None || op.from == Some(before.lifecycle[op.pane].source)))
    && (if done then after.lifecycle == before.lifecycle - {op.pane} && after.evidence == before.evidence - {op.pane}
        else after == before)
  }

  ghost predicate Leaves(w: World, before: State, after: State, op: Op, now: string) {
    match op
    case ReportAgent(_, _, _, _, _) => ReportLeaves(w, before, after, op, now)
    case ClearAuthority(_, _) => ReleaseLeaves(before, after, op, after != before)
    case Observe(_, _, _, _) => ObserveLeaves(w, before, after, op, now)
    case ReportCompletion(_, _, _) => CompletionLeaves(w, before, after, op, now)
    case Freeze => after == before.(frozen := true)
    case Thaw => after == before.(frozen := false)
  }

  // ---------------------------------------------------------------- handoff

  const Schema := "chitra.agent-status.v1"

  datatype Handoff = Handoff(schema: string, number: int, panes: seq<WirePane>, reports: seq<WireReport>)
  datatype Validated = Validated(number: nat, panes: seq<PaneStatus>, reports: seq<Report>)

  function PanesInOrder(statuses: map<string, PaneStatus>, ids: seq<string>): (r: seq<PaneStatus>)
    requires forall id :: id in ids ==> id in statuses
    ensures |r| == |ids| && forall k :: 0 <= k < |ids| ==> r[k] == statuses[ids[k]]
  {
    seq(|ids|, k requires 0 <= k < |ids| => statuses[ids[k]])
  }

  function ReportsInOrder(reports: map<string, Report>, ids: seq<string>): (r: seq<Report>)
    requires forall id :: id in ids ==> id in reports
    ensures |r| == |ids| && forall k :: 0 <= k < |ids| ==> r[k] == reports[ids[k]]
  {
    seq(|ids|, k requires 0 <= k < |ids| => reports[ids[k]])
  }

  function WritePanes(ps: seq<PaneStatus>): (r: seq<WirePane>)
    ensures |r| == |ps| && forall k :: 0 <= k < |ps| ==> r[k] == WritePane(ps[k])
  {
    seq(|ps|, k requires 0 <= k < |ps| => WritePane(ps[k]))
  }

  function WriteReports(rs: seq<Report>): (r: seq<WireReport>)
    ensures |r| == |rs| && forall k :: 0 <= k < |rs| ==> r[k] == WriteReport(rs[k])
  {
    seq(|rs|, k requires 0 <= k < |rs| => WriteReport(rs[k]))
  }

  function HandoffSnapshot(s: State): Handoff {
    Handoff(Schema, s.number, WritePanes(PanesInOrder(s.statuses, Sorted(s.statuses.Keys))),
            WriteReports(ReportsInOrder(s.lifecycle, Sorted(s.lifecycle.Keys))))
  }

  function ParsePanes(ws: seq<WirePane>): Option<seq<PaneStatus>> {
    if ws == [] then Some([])
    else
      var first, rest := ParsePane(ws[0]), ParsePanes(ws[1..]);
      if first.None? || rest.None? then None else Some([first.value] + rest.value)
  }

  function ParseReports(ws: seq<WireReport>): Option<seq<Report>> {
    if ws == [] then Some([])
    else
      var first, rest := ParseReport(ws[0]), ParseReports(ws[1..]);
      if first.None? || rest.None? then None else Some([first.value] + rest.value)
  }

  predicate DistinctPanes(ps: seq<PaneStatus>) { forall j, k :: 0 <= j < k < |ps| ==> ps[j].id != ps[k].id }
  predicate DistinctReports(rs: seq<Report>) { forall j, k :: 0 <= j < k < |rs| ==> rs[j].pane != rs[k].pane }

  /** An integration status repeats its report. */
  predicate Agrees(p: PaneStatus, r: Report) {
    p.claim.authority.Integration? ==>
      p.agent == r.agent && p.claim.state == r.state && p.claim.source == Some(r.source) &&
        (r.session.None? || r.session == p.session)
  }

  predicate ReportsReference(ps: seq<PaneStatus>, rs: seq<Report>) {
    forall r :: r in rs ==> exists p :: p in ps && p.id == r.pane
  }

  predicate ReportsAgree(ps: seq<PaneStatus>, rs: seq<Report>) {
    forall r, p :: r in rs && p in ps && p.id == r.pane ==> Agrees(p, r)
  }

  function Validate(h: Handoff): Option<Validated> {
    var panes, reports := ParsePanes(h.panes), ParseReports(h.reports);
    if h.schema != Schema || h.number < 0 || panes.None? || reports.None? then None
    else if !DistinctPanes(panes.value) || !DistinctReports(reports.value) ||
      !ReportsReference(panes.value, reports.value) then None
    else if exists p :: p in panes.value && h.number < p.revision then None
    else if !ReportsAgree(panes.value, reports.value) then None
    else Some(Validated(h.number, panes.value, reports.value))
  }

  function PaneMap(ps: seq<PaneStatus>): map<string, PaneStatus> {
    if ps == [] then map[] else PaneMap(ps[..|ps| - 1])[ps[|ps| - 1].id := ps[|ps| - 1]]
  }

  function ReportMap(rs: seq<Report>): map<string, Report> {
    if rs == [] then map[] else ReportMap(rs[..|rs| - 1])[rs[|rs| - 1].pane := rs[|rs| - 1]]
  }

  /** Only an empty broker accepts a snapshot. */
  function Import(s: State, v: Validated): Option<State> {
    if s.statuses != map[] || s.lifecycle != map[] || s.number != 0 then None
    else Some(s.(statuses := PaneMap(v.panes), lifecycle := ReportMap(v.reports), number := v.number))
  }
}
