/** Pane statuses, lifecycle reports and their handoff form, from src/chitra/agent_runtime.py.

    The wire form has the states, authorities and kinds as text, the parsers check every field, and
    parsing what was written gives it back exactly when it is well formed. */
module StatusWire {
  import opened Basics
  import opened Classifier

  datatype PaneStatus = PaneStatus(
    id: string, target: string, session: Option<string>, lane: string, agent: string, claim: Claim,
    observedAt: string, revision: int, socket: Option<string>, sha: string, explain: Explain)

  datatype Report = Report(pane: string, session: Option<string>, source: string, agent: string, state: AgentState,
                           at: string)

  // ---------------------------------------------------------------- well-formed values

  predicate Lower(c: char) { 'a' <= c <= 'z' }
  predicate Numeral(c: char) { '0' <= c <= '9' }

  /** `^%[0-9]+$` */
  predicate PaneId(s: string) { |s| >= 2 && s[0] == '%' && forall c :: c in s[1..] ==> Numeral(c) }

  /** `^[a-z][a-z0-9_-]{0,63}$` */
  predicate AgentId(s: string) {
    1 <= |s| <= 64 && Lower(s[0]) && forall c :: c in s ==> Lower(c) || Numeral(c) || c == '_' || c == '-'
  }

  /** `^[A-Za-z0-9][A-Za-z0-9:._-]{0,79}$` */
  predicate SourceId(s: string) {
    1 <= |s| <= 80 && IdHead(s[0]) && forall c :: c in s ==> IdHead(c) || c == ':' || c == '.' || c == '_' || c == '-'
  }

  /** `^[0-9a-f]{64}$` */
  predicate Sha256(s: string) { |s| == 64 && forall c :: c in s ==> Numeral(c) || 'a' <= c <= 'f' }

  /** Absent, or a non-empty text. */
  predicate OptText(o: Option<string>) { o != Some("") }

  predicate ReportState(s: AgentState) { s.Idle? || s.Working? || s.Blocked? }

  predicate EvaluationOk(e: Evaluation) {
    e.ruleId != "" && ManifestState(e.state) && e.region != "" && 1 <= e.lines <= 200 && |e.all| <= 32 &&
      |e.any| <= 32 && |e.none| <= 32
  }

  predicate EvaluationsOk(es: seq<Evaluation>) { |es| <= 128 && forall e :: e in es ==> EvaluationOk(e) }

  predicate ExplainTextsOk(e: Explain) {
    && OptText(e.claim.source) && OptText(e.version) && OptText(e.matched) && OptText(e.fallback) &&
      OptText(e.skipReason)
    && OptText(e.warning) && OptText(e.resumeAt) && OptText(e.suppressed)
  }

  predicate ExplainOk(e: Explain) { e.agent != "" && ExplainTextsOk(e) && EvaluationsOk(e.rules) }

  predicate PaneTextsOk(p: PaneStatus) {
    && PaneId(p.id) && p.target != "" && OptText(p.session) && p.lane != "" && AgentId(p.agent) &&
      OptText(p.claim.source)
    && p.observedAt != "" && OptText(p.socket) && Sha256(p.sha)
  }

  /** The status repeats its explanation, and a screen-derived blocked one names its kind. */
  predicate Explained(p: PaneStatus) {
    && p.explain.claim.state == p.claim.state && p.explain.claim.authority == p.claim.authority &&
      p.explain.agent == p.agent
    && (p.claim.authority.Manifested? && p.claim.state.Blocked? ==> p.explain.blocker.Some?)
  }

  predicate PaneOk(p: PaneStatus) { PaneTextsOk(p) && p.revision >= 1 && ExplainOk(p.explain) && Explained(p) }

  predicate ReportOk(r: Report) {
    PaneId(r.pane) && OptText(r.session) && SourceId(r.source) && AgentId(r.agent) && ReportState(r.state) && r.at != ""
  }

  // ---------------------------------------------------------------- names on the wire

  function StateName(s: AgentState): string {
    match s
    case Idle => "idle"
    case Working => "working"
    case Blocked => "blocked"
    case Done => "done"
    case Unknown => "unknown"
    case RateLimitedHard => "rate_limited_hard"
    case RateLimitedWarn => "rate_limited_warn"
  }

  function StateOf(s: string): Option<AgentState> {
    if s == "idle" then Some(Idle) else if s == "working" then Some(Working) else if s == "blocked" then Some(Blocked)
    else if s == "done" then Some(Done) else if s == "unknown" then Some(Unknown)
    else if s == "rate_limited_hard" then Some(RateLimitedHard)
         else if s == "rate_limited_warn" then Some(RateLimitedWarn) else None
  }

  lemma StateRoundTrip(s: AgentState)
    ensures StateOf(StateName(s)) == Some(s)
  {
    assert "idle"[0] == 'i' && "working"[0] == 'w' && "blocked"[0] == 'b' && "done"[0] == 'd' && "unknown"[0] == 'u';
    assert "rate_limited_hard"[0] == 'r' && "rate_limited_warn"[0] == 'r' && "rate_limited_hard"[13] == 'h' &&
           "rate_limited_warn"[13] == 'w';
  }

  function AuthorityName(a: Authority): string {
    match a
    case Integration => "integration"
    case Manifested => "manifest"
    case Fallback => "fallback"
    case Completion => "completion"
  }

  function AuthorityOf(s: string): Option<Authority> {
    if s == "integration" then Some(Integration) else if s == "manifest" then Some(Manifested)
    else if s == "fallback" then Some(Fallback) else if s == "completion" then Some(Completion) else None
  }

  lemma AuthorityRoundTrip(a: Authority)
    ensures AuthorityOf(AuthorityName(a)) == Some(a)
  {
    assert "integration"[0] == 'i' && "manifest"[0] == 'm' && "fallback"[0] == 'f' && "completion"[0] == 'c';
  }

  function KindName(k: Option<SourceKind>): Option<string> {
    match k
    case None => None
    case Some(FromIntegration) => Some("integration")
    case Some(Local) => Some("local")
    case Some(Bundled) => Some("bundled")
    case Some(Internal) => Some("internal")
  }

  function KindOf(s: Option<string>): Option<Option<SourceKind>> {
    if s == None then Some(None)
    else if s == Some("integration") then Some(Some(FromIntegration)) else if s == Some("local") then Some(Some(Local))
    else if s == Some("bundled") then Some(Some(Bundled))
         else if s == Some("internal") then Some(Some(Internal)) else None
  }

  lemma KindRoundTrip(k: Option<SourceKind>)
    ensures KindOf(KindName(k)) == Some(k)
  {
    assert |"integration"| == 11 && |"local"| == 5 && |"bundled"| == 7 && |"internal"| == 8;
  }

  function BlockerName(b: Option<Blocker>): Option<string> {
    match b
    case None => None
    case Some(Approval) => Some("approval")
    case Some(Question) => Some("question")
    case Some(Permission) => Some("permission")
  }

  function BlockerOf(s: Option<string>): Option<Option<Blocker>> {
    if s == None then Some(None)
    else if s == Some("approval") then Some(Some(Approval)) else if s == Some("question") then Some(Some(Question))
    else if s == Some("permission") then Some(Some(Permission)) else None
  }

  lemma BlockerRoundTrip(b: Option<Blocker>)
    ensures BlockerOf(BlockerName(b)) == Some(b)
  {
    assert "approval"[0] == 'a' && "question"[0] == 'q' && "permission"[0] == 'p';
  }

  // ---------------------------------------------------------------- rule evaluations

  datatype WireEvaluation = WireEvaluation(ruleId: string, state: string, priority: int, region: string, lines: int,
                                           matched: bool,
                                           all: seq<bool>, any: seq<bool>, none: seq<bool>)

  function WriteEvaluation(e: Evaluation): WireEvaluation {
    WireEvaluation(e.ruleId, StateName(e.state), e.priority, e.region, e.lines, e.matched, e.all, e.any, e.none)
  }

  function ParseEvaluation(w: WireEvaluation): Option<Evaluation> {
    var state := StateOf(w.state);
    if state.None? then None
    else
      var e := Evaluation(w.ruleId, state.value, w.priority, w.region, w.lines, w.matched, w.all, w.any, w.none);
      if EvaluationOk(e) then Some(e) else None
  }

  lemma EvaluationRoundTrip(e: Evaluation)
    ensures ParseEvaluation(WriteEvaluation(e)) == if EvaluationOk(e) then Some(e) else None
  {
    StateRoundTrip(e.state);
  }

  function WriteEvaluations(es: seq<Evaluation>): (r: seq<WireEvaluation>)
    ensures |r| == |es|
    ensures forall k :: 0 <= k < |es| ==> r[k] == WriteEvaluation(es[k])
  {
    seq(|es|, k requires 0 <= k < |es| => WriteEvaluation(es[k]))
  }

  /** Stops at the first entry that does not parse. */
  function ParseEach(ws: seq<WireEvaluation>): Option<seq<Evaluation>> {
    if ws == [] then Some([])
    else
      var first, rest := ParseEvaluation(ws[0]), ParseEach(ws[1..]);
      if first.None? || rest.None? then None else Some([first.value] + rest.value)
  }

  function ParseEvaluations(ws: seq<WireEvaluation>): Option<seq<Evaluation>> {
    if |ws| > 128 then None else ParseEach(ws)
  }

  lemma {:induction false} EachRoundTrip(es: seq<Evaluation>)
    ensures ParseEach(WriteEvaluations(es)) == if forall e :: e in es ==> EvaluationOk(e) then Some(es) else None
  {
    if es != [] {
      EvaluationRoundTrip(es[0]);
      EachRoundTrip(es[1..]);
      assert WriteEvaluations(es)[1..] == WriteEvaluations(es[1..]);
      assert es == [es[0]] + es[1..];
    }
  }

  lemma EvaluationsRoundTrip(es: seq<Evaluation>)
    ensures ParseEvaluations(WriteEvaluations(es)) == if EvaluationsOk(es) then Some(es) else None
  {
    EachRoundTrip(es);
  }

  // ---------------------------------------------------------------- explanations

  datatype WireExplain = WireExplain(
    agent: string, state: string, authority: string, source: Option<string>, kind: Option<string>,
    version: Option<string>, matched: Option<string>, blocker: Option<string>, fallback: Option<string>,
    skipReason: Option<string>, skipped: bool, rules: seq<WireEvaluation>, warning: Option<string>,
    resumeAt: Option<string>, suppressed: Option<string>)

  function WriteExplain(e: Explain): WireExplain {
    WireExplain(e.agent, StateName(e.claim.state), AuthorityName(e.claim.authority), e.claim.source,
                KindName(e.kind), e.version, e.matched, BlockerName(e.blocker), e.fallback, e.skipReason,
                e.skipped, WriteEvaluations(e.rules), e.warning, e.resumeAt, e.suppressed)
  }

  function ParseExplain(w: WireExplain): Option<Explain> {
    var state, authority := StateOf(w.state), AuthorityOf(w.authority);
    var kind, blocker, rules := KindOf(w.kind), BlockerOf(w.blocker), ParseEvaluations(w.rules);
    if state.None? || authority.None? || kind.None? || blocker.None? || rules.None? then None
    else
      var e := Explain(w.agent, Claim(state.value, w.source, authority.value), kind.value, w.version, w.matched,
                       blocker.value, w.fallback, w.skipReason, w.skipped, rules.value, w.warning, w.resumeAt,
                       w.suppressed);
      if e.agent != "" && ExplainTextsOk(e) then Some(e) else None
  }

  lemma ExplainRoundTrip(e: Explain)
    ensures ParseExplain(WriteExplain(e)) == if ExplainOk(e) then Some(e) else None
  {
    StateRoundTrip(e.claim.state);
    AuthorityRoundTrip(e.claim.authority);
    KindRoundTrip(e.kind);
    BlockerRoundTrip(e.blocker);
    EvaluationsRoundTrip(e.rules);
  }

  // ---------------------------------------------------------------- panes and reports

  datatype WirePane = WirePane(
    id: string, target: string, session: Option<string>, lane: string, agent: string, state: string,
    source: Option<string>, authority: string, observedAt: string, revision: int, socket: Option<string>,
    sha: string, explain: WireExplain)

  function WritePane(p: PaneStatus): WirePane {
    WirePane(p.id, p.target, p.session, p.lane, p.agent, StateName(p.claim.state), p.claim.source,
             AuthorityName(p.claim.authority), p.observedAt,
             p.revision, p.socket, p.sha, WriteExplain(p.explain))
  }

  function ParsePane(w: WirePane): Option<PaneStatus> {
    var state, authority, explain := StateOf(w.state), AuthorityOf(w.authority), ParseExplain(w.explain);
    if state.None? || authority.None? || explain.None? || w.revision < 1 then None
    else
      var p := PaneStatus(w.id, w.target, w.session, w.lane, w.agent, Claim(state.value, w.source, authority.value),
                          w.observedAt, w.revision,
                          w.socket, w.sha, explain.value);
      if PaneTextsOk(p) && Explained(p) then Some(p) else None
  }

  /** A status survives the wire exactly when it is well formed. */
  lemma PaneRoundTrip(p: PaneStatus)
    ensures ParsePane(WritePane(p)) == if PaneOk(p) then Some(p) else None
  {
    StateRoundTrip(p.claim.state);
    AuthorityRoundTrip(p.claim.authority);
    ExplainRoundTrip(p.explain);
  }

  datatype WireReport = WireReport(pane: string, session: Option<string>, source: string, agent: string, state: string,
                                   at: string)

  function WriteReport(r: Report): WireReport {
    WireReport(r.pane, r.session, r.source, r.agent, StateName(r.state), r.at)
  }

  function ParseReport(w: WireReport): Option<Report> {
    var state := StateOf(w.state);
    if state.None? then None
    else
      var r := Report(w.pane, w.session, w.source, w.agent, state.value, w.at);
      if ReportOk(r) then Some(r) else None
  }

  lemma ReportRoundTrip(r: Report)
    ensures ParseReport(WriteReport(r)) == if ReportOk(r) then Some(r) else None
  {
    StateRoundTrip(r.state);
  }
}
