/** The promises of the status broker over whole runs: the event log, the handoff, and freshness. */
module BrokerTheorems {
  import opened Basics
  import opened Classifier
  import opened StatusWire
  import opened TextOrder
  import opened Broker
  import opened BrokerRuns
  import opened BrokerEffects

  datatype Call = Call(op: Op, now: string)

  ghost predicate CallsOk(calls: seq<Call>) { forall c :: c in calls ==> OpOk(c.op) && c.now != "" }

  function Exec(w: World, start: State, calls: seq<Call>): State {
    if calls == [] then start
    else var last := calls[|calls| - 1]; Apply(w, Exec(w, start, calls[..|calls| - 1]), last.op, last.now).state
  }

  /** Every event ever published, in order: what the bounded history is a window of. */
  function Log(w: World, start: State, calls: seq<Call>): seq<Event> {
    if calls == [] then []
    else
      var last, front := calls[|calls| - 1], calls[..|calls| - 1];
      var a := Apply(w, Exec(w, start, front), last.op, last.now).answer;
      Log(w, start, front) + if a.Published? then [a.event] else []
  }

  /** An empty broker, or one that has just imported a snapshot. */
  predicate Start(s: State) { Sound(s) && s.events == [] && s.evidence == map[] }

  lemma {:induction false} SoundAlways(w: World, start: State, calls: seq<Call>)
    requires WorldOk(w) && Start(start) && CallsOk(calls)
    ensures Sound(Exec(w, start, calls))
  {
    if calls != [] {
      var last, front := calls[|calls| - 1], calls[..|calls| - 1];
      assert last in calls;
      SoundAlways(w, start, front);
      StepKeepsSound(w, Exec(w, start, front), last.op, last.now);
    }
  }

  // ---------------------------------------------------------------- one step of the log

  function Revision(m: map<string, PaneStatus>, id: string): int { if id in m then m[id].revision else 0 }

  /** A step publishes one event for one pane, or leaves statuses, numbering and history alone. */
  predicate StepShape(s: State, t: Step) {
    if t.answer.Published? then
      var e := t.answer.event;
      && e.number == s.number + 1 == t.state.number
      && e.pane.revision == Revision(s.statuses, e.pane.id) + 1
      && t.state.statuses == s.statuses[e.pane.id := e.pane]
      && t.state.events == Latest(s.events + [e])
    else
      t.state.statuses == s.statuses && t.state.number == s.number && t.state.events == s.events
  }

  lemma ReportShape(w: World, s: State, op: Op, now: string)
    requires op.ReportAgent?
    ensures StepShape(s, DoReport(w, s, op, now))
  {
  }

  lemma ObserveShape(w: World, s: State, op: Op, now: string)
    requires op.Observe?
    ensures StepShape(s, DoObserve(w, s, op, now))
  {
  }

  lemma Shape(w: World, s: State, op: Op, now: string)
    ensures StepShape(s, Apply(w, s, op, now))
  {
    if op.ReportAgent? { ReportShape(w, s, op, now); } else if op.Observe? { ObserveShape(w, s, op, now); }
  }

  function Fold(m: map<string, PaneStatus>, events: seq<Event>): map<string, PaneStatus> {
    if events == [] then m else var last := events[|events| - 1].pane; Fold(m, events[..|events| - 1])[last.id := last]
  }

  lemma {:induction false} FoldAppend(m: map<string, PaneStatus>, a: seq<Event>, b: seq<Event>)
    ensures Fold(m, a + b) == Fold(Fold(m, a), b)
  {
    if b == [] { assert a + b == a; }
    else {
      assert (a + b)[..|a + b| - 1] == a + b[..|b| - 1];
      FoldAppend(m, a, b[..|b| - 1]);
    }
  }

  predicate Consecutive(events: seq<Event>, from: int) {
    forall k :: 0 <= k < |events| ==> events[k].number == from + k + 1
  }

  predicate LogInv(start: State, s: State, log: seq<Event>) {
    && s.number == start.number + |log| && Consecutive(log, start.number)
    && s.events == Latest(log)
    && s.statuses == Fold(start.statuses, log)
  }

  lemma LatestGrows(log: seq<Event>, e: Event)
    ensures Latest(Latest(log) + [e]) == Latest(log + [e])
  {
  }

  lemma LogStep(start: State, s: State, log: seq<Event>, t: Step)
    requires LogInv(start, s, log) && StepShape(s, t)
    ensures LogInv(start, t.state, log + if t.answer.Published? then [t.answer.event] else [])
  {
    if t.answer.Published? {
      var e := t.answer.event;
      LatestGrows(log, e);
      assert (log + [e])[..|log|] == log;
    } else {
      assert log + [] == log;
    }
  }

  lemma {:induction false} LogAlways(w: World, start: State, calls: seq<Call>)
    requires start.events == []
    ensures LogInv(start, Exec(w, start, calls), Log(w, start, calls))
  {
    if calls != [] {
      var last, front := calls[|calls| - 1], calls[..|calls| - 1];
      LogAlways(w, start, front);
      Shape(w, Exec(w, start, front), last.op, last.now);
      LogStep(start, Exec(w, start, front), Log(w, start, front), Apply(w, Exec(w, start, front), last.op, last.now));
    }
  }

  // ---------------------------------------------------------------- the event log agrees with the status map

  /** Retained events are numbered consecutively up to the current number. */
  lemma EventsAreConsecutive(w: World, start: State, calls: seq<Call>)
    requires start.events == []
    ensures var s := Exec(w, start, calls); |s.events| <= MaxHistory && Consecutive(s.events, s.number - |s.events|)
  {
    LogAlways(w, start, calls);
  }

  function EventsAfter(events: seq<Event>, n: int): seq<Event> {
    if events == [] then []
    else EventsAfter(events[..|events| - 1], n) + if events[|events| - 1].number > n then [events[|events| - 1]] else []
  }

  lemma {:induction false} AfterIsSuffix(events: seq<Event>, from: int, n: int)
    requires Consecutive(events, from) && from <= n <= from + |events|
    ensures EventsAfter(events, n) == events[n - from..]
  {
    if events != [] {
      var front := events[..|events| - 1];
      if n == from + |events| { AfterIsNone(events, from, n); }
      else { AfterIsSuffix(front, from, n); assert events[n - from..] == front[n - from..] + [events[|events| - 1]]; }
    }
  }

  lemma {:induction false} AfterIsNone(events: seq<Event>, from: int, n: int)
    requires Consecutive(events, from) && from + |events| <= n
    ensures EventsAfter(events, n) == []
  {
    if events != [] { AfterIsNone(events[..|events| - 1], from, n); }
  }

  lemma {:induction false} LogExtends(w: World, start: State, calls: seq<Call>, k: nat)
    requires k <= |calls|
    ensures |Log(w, start, calls[..k])| <= |Log(w, start, calls)|
    ensures Log(w, start, calls[..k]) == Log(w, start, calls)[..|Log(w, start, calls[..k])|]
    decreases |calls|
  {
    if k == |calls| { assert calls[..k] == calls; }
    else {
      var front := calls[..|calls| - 1];
      assert front[..k] == calls[..k];
      LogExtends(w, start, front, k);
    }
  }

  /** A subscriber who knew the map at any earlier point of the run, and whose point is still retained, recovers the
      current map from the events after it. */
  lemma ReplayCatchesUp(w: World, start: State, calls: seq<Call>, k: nat)
    requires start.events == [] && k <= |calls|
    requires Exec(w, start, calls[..k]).number >= Exec(w, start, calls).number - |Exec(w, start, calls).events|
    ensures var past, now := Exec(w, start, calls[..k]), Exec(w, start, calls);
            Fold(past.statuses, EventsAfter(now.events, past.number)) == now.statuses
  {
    LogAlways(w, start, calls);
    LogAlways(w, start, calls[..k]);
    LogExtends(w, start, calls, k);
    Replay(start, Exec(w, start, calls[..k]), Exec(w, start, calls), Log(w, start, calls[..k]), Log(w, start, calls));
  }

  lemma Replay(start: State, past: State, now: State, early: seq<Event>, log: seq<Event>)
    requires LogInv(start, past, early) && LogInv(start, now, log) && |early| <= |log| && early == log[..|early|]
    requires past.number >= now.number - |now.events|
    ensures Fold(past.statuses, EventsAfter(now.events, past.number)) == now.statuses
  {
    AfterIsSuffix(now.events, now.number - |now.events|, past.number);
    assert EventsAfter(now.events, past.number) == log[|early|..];
    assert log == early + log[|early|..];
    FoldAppend(start.statuses, early, log[|early|..]);
  }

  // ---------------------------------------------------------------- the number is the sum of all revisions

  ghost function Total(m: map<string, PaneStatus>, ids: set<string>): int
    requires ids <= m.Keys
  {
    if ids == {} then 0 else var id :| id in ids; m[id].revision + Total(m, ids - {id})
  }

  lemma TotalPick(m: map<string, PaneStatus>, ids: set<string>, id: string)
    requires ids <= m.Keys && id in ids
    ensures Total(m, ids) == m[id].revision + Total(m, ids - {id})
  {
    var first :| first in ids && Total(m, ids) == m[first].revision + Total(m, ids - {first});
    if first != id {
      TotalPick(m, ids - {first}, id);
      TotalPick(m, ids - {id}, first);
      assert ids - {first} - {id} == ids - {id} - {first};
    }
  }

  lemma {:induction false} TotalSame(a: map<string, PaneStatus>, b: map<string, PaneStatus>, ids: set<string>)
    requires ids <= a.Keys && ids <= b.Keys && forall id :: id in ids ==> a[id] == b[id]
    ensures Total(a, ids) == Total(b, ids)
  {
    if ids != {} {
      var id :| id in ids;
      TotalPick(a, ids, id);
      TotalPick(b, ids, id);
      TotalSame(a, b, ids - {id});
    }
  }

  lemma TotalPut(m: map<string, PaneStatus>, p: PaneStatus)
    requires p.revision == Revision(m, p.id) + 1
    ensures Total(m[p.id := p], m[p.id := p].Keys) == Total(m, m.Keys) + 1
  {
    var next := m[p.id := p];
    TotalPick(next, next.Keys, p.id);
    var rest := m.Keys - {p.id};
    assert next.Keys - {p.id} == rest;
    TotalSame(m, next, rest);
    if p.id in m { TotalPick(m, m.Keys, p.id); } else { assert rest == m.Keys; }
  }

  /** From an empty start, or any start that satisfies it, the number is the sum of all pane revisions. */
  lemma {:induction false} NumberIsTotal(w: World, start: State, calls: seq<Call>)
    requires start.number == Total(start.statuses, start.statuses.Keys)
    ensures var s := Exec(w, start, calls); s.number == Total(s.statuses, s.statuses.Keys)
  {
    if calls != [] {
      var last, front := calls[|calls| - 1], calls[..|calls| - 1];
      NumberIsTotal(w, start, front);
      var s := Exec(w, start, front);
      Shape(w, s, last.op, last.now);
      var a := Apply(w, s, last.op, last.now).answer;
      if a.Published? { TotalPut(s.statuses, a.event.pane); }
    }
  }

  // ---------------------------------------------------------------- handoff round trip

  lemma {:induction false} PanesRoundTrip(ps: seq<PaneStatus>)
    requires forall p :: p in ps ==> PaneOk(p)
    ensures ParsePanes(WritePanes(ps)) == Some(ps)
  {
    if ps != [] {
      PaneRoundTrip(ps[0]);
      PanesRoundTrip(ps[1..]);
      assert WritePanes(ps)[1..] == WritePanes(ps[1..]);
      assert ps == [ps[0]] + ps[1..];
    }
  }

  lemma {:induction false} ReportsRoundTrip(rs: seq<Report>)
    requires forall r :: r in rs ==> ReportOk(r)
    ensures ParseReports(WriteReports(rs)) == Some(rs)
  {
    if rs != [] {
      ReportRoundTrip(rs[0]);
      ReportsRoundTrip(rs[1..]);
      assert WriteReports(rs)[1..] == WriteReports(rs[1..]);
      assert rs == [rs[0]] + rs[1..];
    }
  }

  /** The sorted panes list every status once. */
  predicate ListsPanes(statuses: map<string, PaneStatus>, ps: seq<PaneStatus>) {
    && DistinctPanes(ps)
    && (forall p :: p in ps ==> p.id in statuses && statuses[p.id] == p)
    && (forall id :: id in statuses ==> statuses[id] in ps)
  }

  predicate ListsReports(reports: map<string, Report>, rs: seq<Report>) {
    && DistinctReports(rs)
    && (forall r :: r in rs ==> r.pane in reports && reports[r.pane] == r)
    && (forall id :: id in reports ==> reports[id] in rs)
  }

  lemma PanesListed(statuses: map<string, PaneStatus>, ids: seq<string>)
    requires StrictlySorted(ids) && (forall id :: id in ids <==> id in statuses)
    requires forall id :: id in statuses ==> statuses[id].id == id
    ensures ListsPanes(statuses, PanesInOrder(statuses, ids))
  {
    var ps := PanesInOrder(statuses, ids);
    forall j, k | 0 <= j < k < |ps| ensures ps[j].id != ps[k].id { assert ids[j] in ids && ids[k] in ids; }
    forall p | p in ps ensures p.id in statuses && statuses[p.id] == p {
      var k :| 0 <= k < |ps| && ps[k] == p;
      assert ids[k] in ids;
    }
    forall id | id in statuses ensures statuses[id] in ps {
      var k :| 0 <= k < |ids| && ids[k] == id;
      assert ps[k] == statuses[id];
    }
  }

  lemma ReportsListed(reports: map<string, Report>, ids: seq<string>)
    requires StrictlySorted(ids) && (forall id :: id in ids <==> id in reports)
    requires forall id :: id in reports ==> reports[id].pane == id
    ensures ListsReports(reports, ReportsInOrder(reports, ids))
  {
    var rs := ReportsInOrder(reports, ids);
    forall j, k | 0 <= j < k < |rs| ensures rs[j].pane != rs[k].pane { assert ids[j] in ids && ids[k] in ids; }
    forall r | r in rs ensures r.pane in reports && reports[r.pane] == r {
      var k :| 0 <= k < |rs| && rs[k] == r;
      assert ids[k] in ids;
    }
    forall id | id in reports ensures reports[id] in rs {
      var k :| 0 <= k < |ids| && ids[k] == id;
      assert rs[k] == reports[id];
    }
  }

  lemma {:induction false} PaneMapAt(ps: seq<PaneStatus>, k: nat)
    requires DistinctPanes(ps) && k < |ps|
    ensures ps[k].id in PaneMap(ps) && PaneMap(ps)[ps[k].id] == ps[k]
  {
    if k < |ps| - 1 { PaneMapAt(ps[..|ps| - 1], k); }
  }

  lemma {:induction false} PaneMapFrom(ps: seq<PaneStatus>, id: string) returns (k: nat)
    requires id in PaneMap(ps)
    ensures k < |ps| && ps[k].id == id
  {
    if ps[|ps| - 1].id == id { k := |ps| - 1; } else { k := PaneMapFrom(ps[..|ps| - 1], id); }
  }

  lemma {:induction false} ReportMapAt(rs: seq<Report>, k: nat)
    requires DistinctReports(rs) && k < |rs|
    ensures rs[k].pane in ReportMap(rs) && ReportMap(rs)[rs[k].pane] == rs[k]
  {
    if k < |rs| - 1 { ReportMapAt(rs[..|rs| - 1], k); }
  }

  lemma {:induction false} ReportMapFrom(rs: seq<Report>, id: string) returns (k: nat)
    requires id in ReportMap(rs)
    ensures k < |rs| && rs[k].pane == id
  {
    if rs[|rs| - 1].pane == id { k := |rs| - 1; } else { k := ReportMapFrom(rs[..|rs| - 1], id); }
  }

  lemma PaneMapRestores(statuses: map<string, PaneStatus>, ps: seq<PaneStatus>)
    requires ListsPanes(statuses, ps) && forall id :: id in statuses ==> statuses[id].id == id
    ensures PaneMap(ps) == statuses
  {
    forall id | id in statuses ensures id in PaneMap(ps) && PaneMap(ps)[id] == statuses[id] {
      assert statuses[id] in ps;
      var k :| 0 <= k < |ps| && ps[k] == statuses[id];
      PaneMapAt(ps, k);
    }
    forall id | id in PaneMap(ps) ensures id in statuses {
      var k := PaneMapFrom(ps, id);
      assert ps[k] in ps;
    }
  }

  lemma ReportMapRestores(reports: map<string, Report>, rs: seq<Report>)
    requires ListsReports(reports, rs) && forall id :: id in reports ==> reports[id].pane == id
    ensures ReportMap(rs) == reports
  {
    forall id | id in reports ensures id in ReportMap(rs) && ReportMap(rs)[id] == reports[id] {
      assert reports[id] in rs;
      var k :| 0 <= k < |rs| && rs[k] == reports[id];
      ReportMapAt(rs, k);
    }
    forall id | id in ReportMap(rs) ensures id in reports {
      var k := ReportMapFrom(rs, id);
      assert rs[k] in rs;
    }
  }

  /** The cross-checks of the validator hold of the listed state. */
  lemma CrossChecks(s: State, ps: seq<PaneStatus>, rs: seq<Report>)
    requires Sound(s) && ListsPanes(s.statuses, ps) && ListsReports(s.lifecycle, rs)
    ensures ReportsReference(ps, rs) && ReportsAgree(ps, rs)
    ensures forall p :: p in ps ==> PaneOk(p) && p.revision <= s.number
    ensures forall r :: r in rs ==> ReportOk(r)
  {
    forall r | r in rs ensures ReportOk(r) && exists p :: p in ps && p.id == r.pane {
      assert ReportFits(s, r.pane) && PaneFits(s, r.pane);
      assert s.statuses[r.pane] in ps;
    }
    forall p | p in ps ensures PaneOk(p) && p.revision <= s.number { assert PaneFits(s, p.id); }
    forall r, p | r in rs && p in ps && p.id == r.pane ensures Agrees(p, r) { assert ReportFits(s, r.pane); }
  }

  lemma Listed(s: State)
    requires Sound(s)
    ensures ListsPanes(s.statuses, PanesInOrder(s.statuses, Sorted(s.statuses.Keys)))
    ensures ListsReports(s.lifecycle, ReportsInOrder(s.lifecycle, Sorted(s.lifecycle.Keys)))
    ensures forall id :: id in s.statuses ==> s.statuses[id].id == id
    ensures forall id :: id in s.lifecycle ==> s.lifecycle[id].pane == id
  {
    forall id | id in s.statuses ensures s.statuses[id].id == id { assert PaneFits(s, id); }
    forall id | id in s.lifecycle ensures s.lifecycle[id].pane == id { assert ReportFits(s, id); }
    PanesListed(s.statuses, Sorted(s.statuses.Keys));
    ReportsListed(s.lifecycle, Sorted(s.lifecycle.Keys));
  }

  lemma SnapshotValidates(s: State)
    requires Sound(s)
    ensures Validate(HandoffSnapshot(s))
         == Some(Validated(s.number, PanesInOrder(s.statuses, Sorted(s.statuses.Keys)),
                           ReportsInOrder(s.lifecycle, Sorted(s.lifecycle.Keys))))
  {
    var ps := PanesInOrder(s.statuses, Sorted(s.statuses.Keys));
    var rs := ReportsInOrder(s.lifecycle, Sorted(s.lifecycle.Keys));
    Listed(s);
    CrossChecks(s, ps, rs);
    PanesRoundTrip(ps);
    ReportsRoundTrip(rs);
  }

  /** Whatever a broker has been through, its snapshot validates, and importing it into an empty broker restores the
      statuses, the lifecycle reports and the sequence number; the replacement is again a valid start. */
  lemma HandoffRoundTrip(w: World, start: State, calls: seq<Call>)
    requires WorldOk(w) && Start(start) && CallsOk(calls)
    ensures var s := Exec(w, start, calls);
            var v := Validate(HandoffSnapshot(s));
            && v.Some?
            && Import(Empty, v.value) ==
              Some(Empty.(statuses := s.statuses, lifecycle := s.lifecycle, number := s.number))
            && Start(Import(Empty, v.value).value)
  {
    var s := Exec(w, start, calls);
    SoundAlways(w, start, calls);
    SnapshotValidates(s);
    ImportRestores(s);
    ImportedStarts(s);
  }

  lemma ImportRestores(s: State)
    requires Sound(s)
    ensures Import(Empty,
                   Validated(s.number, PanesInOrder(s.statuses, Sorted(s.statuses.Keys)),
                             ReportsInOrder(s.lifecycle, Sorted(s.lifecycle.Keys))))
         == Some(Empty.(statuses := s.statuses, lifecycle := s.lifecycle, number := s.number))
  {
    Listed(s);
    PaneMapRestores(s.statuses, PanesInOrder(s.statuses, Sorted(s.statuses.Keys)));
    ReportMapRestores(s.lifecycle, ReportsInOrder(s.lifecycle, Sorted(s.lifecycle.Keys)));
  }

  lemma ImportedStarts(s: State)
    requires Sound(s)
    ensures Start(Empty.(statuses := s.statuses, lifecycle := s.lifecycle, number := s.number))
  {
    var next := Empty.(statuses := s.statuses, lifecycle := s.lifecycle, number := s.number);
    SamePanesOk(s, next);
    forall id | id in next.lifecycle ensures ReportFits(next, id) { assert ReportFits(s, id); }
  }

  /** While a handoff holds the freeze barrier nothing changes, so the snapshot it took stays current. */
  lemma {:induction false} FreezeHolds(w: World, s: State, calls: seq<Call>)
    requires s.frozen && forall c :: c in calls ==> !c.op.Thaw?
    ensures Exec(w, s, calls) == s
  {
    if calls != [] {
      assert calls[|calls| - 1] in calls;
      FreezeHolds(w, s, calls[..|calls| - 1]);
      FrozenStep(w, s, calls[|calls| - 1].op, calls[|calls| - 1].now);
    }
  }

  lemma FrozenStep(w: World, s: State, op: Op, now: string)
    requires s.frozen && !op.Thaw?
    ensures Apply(w, s, op, now).state == s
  {
  }

  // ---------------------------------------------------------------- whatever validates is safe to import

  lemma ParsedEvaluationsOk(ws: seq<WireEvaluation>)
    requires ParseEvaluations(ws).Some?
    ensures EvaluationsOk(ParseEvaluations(ws).value)
  {
    ParsedEachOk(ws);
  }

  lemma {:induction false} ParsedEachOk(ws: seq<WireEvaluation>)
    requires ParseEach(ws).Some?
    ensures |ParseEach(ws).value| == |ws| && forall e :: e in ParseEach(ws).value ==> EvaluationOk(e)
  {
    if ws != [] { ParsedEachOk(ws[1..]); }
  }

  lemma ParsedPaneOk(w: WirePane)
    requires ParsePane(w).Some?
    ensures PaneOk(ParsePane(w).value)
  {
    ParsedEvaluationsOk(w.explain.rules);
  }

  lemma {:induction false} ParsedPanesOk(ws: seq<WirePane>)
    requires ParsePanes(ws).Some?
    ensures forall p :: p in ParsePanes(ws).value ==> PaneOk(p)
  {
    if ws != [] {
      ParsedPaneOk(ws[0]);
      ParsedPanesOk(ws[1..]);
    }
  }

  lemma {:induction false} ParsedReportsOk(ws: seq<WireReport>)
    requires ParseReports(ws).Some?
    ensures forall r :: r in ParseReports(ws).value ==> ReportOk(r)
  {
    if ws != [] { ParsedReportsOk(ws[1..]); }
  }

  lemma PaneMapHas(ps: seq<PaneStatus>, id: string)
    requires DistinctPanes(ps) && id in PaneMap(ps)
    ensures PaneMap(ps)[id] in ps && PaneMap(ps)[id].id == id
  {
    var k := PaneMapFrom(ps, id);
    PaneMapAt(ps, k);
  }

  lemma ReportMapHas(rs: seq<Report>, id: string)
    requires DistinctReports(rs) && id in ReportMap(rs)
    ensures ReportMap(rs)[id] in rs && ReportMap(rs)[id].pane == id
  {
    var k := ReportMapFrom(rs, id);
    ReportMapAt(rs, k);
  }

  lemma ValidatedFacts(h: Handoff)
    requires Validate(h).Some?
    ensures var v := Validate(h).value;
            && (forall p :: p in v.panes ==> PaneOk(p) && p.revision <= v.number) &&
              (forall r :: r in v.reports ==> ReportOk(r))
            && DistinctPanes(v.panes) && DistinctReports(v.reports)
            && ReportsReference(v.panes, v.reports) && ReportsAgree(v.panes, v.reports)
  {
    ParsedPanesOk(h.panes);
    ParsedReportsOk(h.reports);
  }

  lemma {:induction false} ParsePanesIff(ws: seq<WirePane>, ps: seq<PaneStatus>)
    ensures ParsePanes(ws) == Some(ps) <==> |ps| == |ws| && forall k :: 0 <= k < |ws| ==>
              ParsePane(ws[k]) == Some(ps[k])
  {
    if ws != [] && ps != [] {
      ParsePanesIff(ws[1..], ps[1..]);
      assert ps == [ps[0]] + ps[1..];
      assert forall k :: 1 <= k < |ws| ==> ws[k] == ws[1..][k - 1];
      assert forall k :: 1 <= k < |ps| ==> ps[k] == ps[1..][k - 1];
    }
  }

  lemma {:induction false} ParseReportsIff(ws: seq<WireReport>, rs: seq<Report>)
    ensures ParseReports(ws) == Some(rs) <==> |rs| == |ws| && forall k :: 0 <= k < |ws| ==>
              ParseReport(ws[k]) == Some(rs[k])
  {
    if ws != [] && rs != [] {
      ParseReportsIff(ws[1..], rs[1..]);
      assert rs == [rs[0]] + rs[1..];
      assert forall k :: 1 <= k < |ws| ==> ws[k] == ws[1..][k - 1];
      assert forall k :: 1 <= k < |rs| ==> rs[k] == rs[1..][k - 1];
    }
  }

  /** No pane or report is given twice or revised beyond the number, and each report names a pane that repeats it if
      that pane's claim is an integration's. */
  ghost predicate InOrder(number: int, ps: seq<PaneStatus>, rs: seq<Report>) {
    && (forall k :: 0 <= k < |ps| ==> ps[k].revision <= number)
    && (forall j, k :: 0 <= j < k < |ps| ==> ps[j].id != ps[k].id)
    && (forall j, k :: 0 <= j < k < |rs| ==> rs[j].pane != rs[k].pane)
    && (forall r :: r in rs ==> exists p :: p in ps && p.id == r.pane)
    && forall r, p :: r in rs && p in ps && p.id == r.pane && p.claim.authority == Integration ==>
         && p.agent == r.agent && p.claim.state == r.state && p.claim.source == Some(r.source)
         && (r.session == None || r.session == p.session)
  }

  lemma InOrderIff(number: int, ps: seq<PaneStatus>, rs: seq<Report>)
    ensures InOrder(number, ps, rs) <==>
            && DistinctPanes(ps) && DistinctReports(rs) && ReportsReference(ps, rs) && ReportsAgree(ps, rs)
            && !(exists p :: p in ps && number < p.revision)
  {
    if !(exists p :: p in ps && number < p.revision) {
      forall k | 0 <= k < |ps| ensures ps[k].revision <= number { assert ps[k] in ps; }
    }
  }

  /** A snapshot validates as these panes and reports exactly when its schema and number are in order, each entry
      parses as the one listed, and the lists are in order. */
  lemma ValidatesIff(h: Handoff, ps: seq<PaneStatus>, rs: seq<Report>)
    ensures (Validate(h).Some? && Validate(h).value.number == h.number && Validate(h).value.panes == ps &&
             Validate(h).value.reports == rs)
            <==>
              && h.schema == "chitra.agent-status.v1" && h.number >= 0 && InOrder(h.number, ps, rs)
              && |ps| == |h.panes| && (forall k :: 0 <= k < |ps| ==> ParsePane(h.panes[k]) == Some(ps[k]))
              && |rs| == |h.reports| && forall k :: 0 <= k < |rs| ==> ParseReport(h.reports[k]) == Some(rs[k])
  {
    ParsePanesIff(h.panes, ps);
    ParseReportsIff(h.reports, rs);
    InOrderIff(h.number, ps, rs);
  }

  /** Whatever snapshot validates, wherever it comes from: an empty broker imports it, holds exactly its panes and
      reports under its number, and is then as good a start as any, so that everything proved of runs holds of it. */
  lemma WhatValidatesIsSafe(h: Handoff)
    requires Validate(h).Some?
    ensures var v := Validate(h).value;
            && Import(Empty, v).Some? && Start(Import(Empty, v).value)
            && var s := Import(Empty, v).value;
               s.number == v.number && ListsPanes(s.statuses, v.panes) && ListsReports(s.lifecycle, v.reports)
  {
    var v := Validate(h).value;
    var s := Import(Empty, v).value;
    ValidatedFacts(h);
    ImportedLists(v);
    forall id | id in s.statuses ensures PaneFits(s, id) { PaneMapHas(v.panes, id); }
    forall id | id in s.lifecycle ensures ReportFits(s, id) {
      ReportMapHas(v.reports, id);
      var p :| p in v.panes && p.id == id;
      assert s.statuses[id] == p;
    }
  }

  lemma ImportedLists(v: Validated)
    requires DistinctPanes(v.panes) && DistinctReports(v.reports)
    ensures ListsPanes(PaneMap(v.panes), v.panes) && ListsReports(ReportMap(v.reports), v.reports)
  {
    forall p | p in v.panes ensures p.id in PaneMap(v.panes) && PaneMap(v.panes)[p.id] == p {
      var k :| 0 <= k < |v.panes| && v.panes[k] == p;
      PaneMapAt(v.panes, k);
    }
    forall r | r in v.reports ensures r.pane in ReportMap(v.reports) && ReportMap(v.reports)[r.pane] == r {
      var k :| 0 <= k < |v.reports| && v.reports[k] == r;
      ReportMapAt(v.reports, k);
    }
    forall id | id in PaneMap(v.panes) ensures PaneMap(v.panes)[id] in v.panes { PaneMapHas(v.panes, id); }
    forall id | id in ReportMap(v.reports) ensures ReportMap(v.reports)[id] in v.reports {
      ReportMapHas(v.reports, id);
    }
  }

  // ---------------------------------------------------------------- freshness

  /** What a call means for the freshness of a pane: nothing, a fresh start, or one more classified observation. */
  datatype Touch = Nothing | Reset(pane: string) | Saw(pane: string, seen: Seen)

  function Touched(w: World, s: State, op: Op): Touch {
    if s.frozen then Nothing
    else
      match op
      case ReportAgent(pane, _, _, _, _) => if ReportArgumentsOk(op) then Reset(pane) else Nothing
      case ClearAuthority(pane, from) =>
        if pane in s.lifecycle && (from.None? || from.value == s.lifecycle[pane].source) then Reset(pane) else Nothing
      case Observe(pane, place, screen, _) =>
        if Governs(s, pane, place.session) then Nothing else Saw(pane, Seen(place.session, place.agent, w.hash(screen)))
      case _ => Nothing
  }

  function Trail(trails: map<string, seq<Seen>>, pane: string): seq<Seen> {
    if pane in trails then trails[pane] else []
  }

  /** Per pane, what the classifier was shown since the last accepted report or release. */
  function TrailStep(touch: Touch, trails: map<string, seq<Seen>>): map<string, seq<Seen>> {
    match touch
    case Nothing => trails
    case Reset(pane) => trails - {pane}
    case Saw(pane, seen) => trails[pane := Trail(trails, pane) + [seen]]
  }

  function Trails(w: World, start: State, calls: seq<Call>): map<string, seq<Seen>> {
    if calls == [] then map[]
    else
      var last, front := calls[|calls| - 1], calls[..|calls| - 1];
      TrailStep(Touched(w, Exec(w, start, front), last.op), Trails(w, start, front))
  }

  /** How many of the last observations are the same. */
  function RunLength(t: seq<Seen>): (n: nat)
    ensures t != [] ==> n >= 1
  {
    if t == [] then 0
    else if |t| >= 2 && t[|t| - 2] == t[|t| - 1] then 1 + RunLength(t[..|t| - 1]) else 1
  }

  predicate FreshnessOk(evidence: map<string, Freshness>, trails: map<string, seq<Seen>>) {
    && evidence.Keys == trails.Keys
    && forall id :: id in evidence ==> FreshAt(evidence[id], trails[id])
  }

  predicate FreshAt(f: Freshness, trail: seq<Seen>) {
    trail != [] && f == Freshness(trail[|trail| - 1], RunLength(trail))
  }

  lemma RefreshedIsRun(t: seq<Seen>, seen: Seen)
    ensures Refreshed(if t == [] then None else Some(Freshness(t[|t| - 1], RunLength(t))), seen) ==
            Freshness(seen, RunLength(t + [seen]))
  {
    assert (t + [seen])[..|t|] == t;
  }

  function Get(evidence: map<string, Freshness>, pane: string): Option<Freshness> {
    if pane in evidence then Some(evidence[pane]) else None
  }

  function EvidenceStep(touch: Touch, evidence: map<string, Freshness>): map<string, Freshness> {
    match touch
    case Nothing => evidence
    case Reset(pane) => evidence - {pane}
    case Saw(pane, seen) => evidence[pane := Refreshed(Get(evidence, pane), seen)]
  }

  lemma ReportEvidence(w: World, s: State, op: Op, now: string)
    requires op.ReportAgent?
    ensures DoReport(w, s, op, now).state.evidence == EvidenceStep(Touched(w, s, op), s.evidence)
  {
  }

  lemma ObserveEvidence(w: World, s: State, op: Op, now: string)
    requires op.Observe?
    ensures DoObserve(w, s, op, now).state.evidence == EvidenceStep(Touched(w, s, op), s.evidence)
  {
  }

  lemma EvidenceAfter(w: World, s: State, op: Op, now: string)
    ensures Apply(w, s, op, now).state.evidence == EvidenceStep(Touched(w, s, op), s.evidence)
  {
    if op.ReportAgent? { ReportEvidence(w, s, op, now); } else if op.Observe? { ObserveEvidence(w, s, op, now); }
  }

  lemma FreshnessStep(evidence: map<string, Freshness>, touch: Touch, trails: map<string, seq<Seen>>)
    requires FreshnessOk(evidence, trails)
    ensures FreshnessOk(EvidenceStep(touch, evidence), TrailStep(touch, trails))
  {
    if touch.Saw? { SawStep(evidence, trails, touch.pane, touch.seen); }
  }

  lemma SawStep(evidence: map<string, Freshness>, trails: map<string, seq<Seen>>, pane: string, seen: Seen)
    requires FreshnessOk(evidence, trails)
    ensures FreshAt(Refreshed(Get(evidence, pane), seen), Trail(trails, pane) + [seen])
  {
    var t := Trail(trails, pane);
    assert pane in evidence ==> FreshAt(evidence[pane], trails[pane]);
    RefreshedIsRun(t, seen);
  }

  lemma {:induction false} FreshnessAlways(w: World, start: State, calls: seq<Call>)
    requires start.evidence == map[]
    ensures FreshnessOk(Exec(w, start, calls).evidence, Trails(w, start, calls))
  {
    if calls != [] {
      var last, front := calls[|calls| - 1], calls[..|calls| - 1];
      FreshnessAlways(w, start, front);
      var s := Exec(w, start, front);
      EvidenceAfter(w, s, last.op, last.now);
      FreshnessStep(s.evidence, Touched(w, s, last.op), Trails(w, start, front));
    }
  }

  predicate Repeats(trail: seq<Seen>, seen: Seen) { trail != [] && trail[|trail| - 1] == seen }

  lemma RepeatedIsStale(evidence: map<string, Freshness>, trails: map<string, seq<Seen>>, pane: string, seen: Seen)
    requires FreshnessOk(evidence, trails)
    ensures Liveness(Refreshed(Get(evidence, pane), seen).count) ==
            if Repeats(Trail(trails, pane), seen) then Some(false) else None
  {
  }

  /** An observation the classifier decides is told stale exactly when the previous one since the last report or release
      was the same: only then does a blocker not yield to a working match. */
  lemma StaleIffRepeated(w: World, start: State, calls: seq<Call>, op: Op, now: string)
    requires start.evidence == map[] && op.Observe?
    requires !Exec(w, start, calls).frozen && !Governs(Exec(w, start, calls), op.pane, op.place.session)
    ensures var s, sha := Exec(w, start, calls), w.hash(op.screen);
            var seen := Seen(op.place.session, op.place.agent, sha);
            var live := if Repeats(Trail(Trails(w, start, calls), op.pane), seen) then Some(false) else None;
            var latest := Refreshed(EvidenceOf(s, op.pane), seen);
            var after := s.(lifecycle := s.lifecycle - {op.pane}, evidence := s.evidence[op.pane := latest]);
            Apply(w, s, op, now) ==
              Settle(after, op.pane, op.place, Classified(w.oracle, op.load, op.place.agent, op.screen, live), sha, now)
  {
    FreshnessAlways(w, start, calls);
    RepeatedIsStale(Exec(w, start, calls).evidence, Trails(w, start, calls), op.pane,
                    Seen(op.place.session, op.place.agent, w.hash(op.screen)));
  }

  // ---------------------------------------------------------------- what a call leaves

  /** Over every run, what a call leaves is exactly what its kind says of the state before it. */
  lemma EveryCallLeaves(w: World, start: State, calls: seq<Call>, call: Call)
    ensures Leaves(w, Exec(w, start, calls), Exec(w, start, calls + [call]), call.op, call.now)
  {
    assert (calls + [call])[..|calls|] == calls;
    StepLeaves(w, Exec(w, start, calls), call.op, call.now);
  }

  /** The freshness the classifier is told of is that of the trail: whether the previous observation it was shown
      since the last report or release was the same. */
  lemma ObservationIsShown(w: World, start: State, calls: seq<Call>, call: Call)
    requires start.evidence == map[] && call.op.Observe? && !Exec(w, start, calls).frozen
    requires !Governs(Exec(w, start, calls), call.op.pane, call.op.place.session)
    ensures var op, sha := call.op, w.hash(call.op.screen);
            var seen := Seen(op.place.session, op.place.agent, sha);
            var live := if Repeats(Trail(Trails(w, start, calls), op.pane), seen) then Some(false) else None;
            ShowsUnlessDone(Exec(w, start, calls), Exec(w, start, calls + [call]), op.pane, op.place,
                            Classified(w.oracle, op.load, op.place.agent, op.screen, live), sha, call.now)
  {
    var op, sha := call.op, w.hash(call.op.screen);
    EveryCallLeaves(w, start, calls, call);
    FreshnessAlways(w, start, calls);
    RepeatedIsStale(Exec(w, start, calls).evidence, Trails(w, start, calls), op.pane,
                    Seen(op.place.session, op.place.agent, sha));
  }
}
