/** The goal store of src/chitra/goals.py: one guarded upsert and the mutators over it.

    Policies are their canonical JSON text. The clock, the validator registry and the
    verified receipts are read from the environment of each call; the vocabularies that
    are not modelled (timestamps, path-safe names, concreteness, plain English) are
    the fixed `Rules`. */
module Goals {
  import opened Basics
  import opened Text
  import opened CompletionGate

  datatype Status =
    | Working | Held | Idle | Blocked | TurnFinishedUnverified | CompletionDisputed
    | DonePendingVerification | DonePendingClose

  predicate IsDone(s: Status) { s.DonePendingVerification? || s.DonePendingClose? }

  datatype Interview = Interview(name: string, completedAt: string, answers: string, provenance: seq<string>)

  /** The strategic values that history keeps. */
  datatype Direction = Direction(goal: string, doneWhen: string, intent: string, scope: string, policy: string)

  datatype Event =
    | Revised(prior: Direction, at: string, reason: string)
    | ReviewRestarted(previous: string, restarted: string, behavior: string, at: string)

  /** What enrolment freezes. */
  datatype Anchor = Anchor(lane: string, doneWhen: string, at: string, interview: Option<Interview>, items: seq<Item>)

  datatype Retirement = Retirement(ask: string, state: RetiredState, basis: string, citation: string,
                                   authority: string, at: string)
  datatype RetiredState = ResolvedByOperator | DismissedByOperator | RetiredByMonitor

  datatype Tactics = Tactics(now: string, lastVerified: string, needs: string, asks: seq<string>,
                             retired: seq<Retirement>, holdReason: string, resumeAt: string)

  datatype Links = Links(successorOf: string, transferredTo: string)

  datatype Record = Record(ref: string, direction: Direction, source: string, status: Status, anchor: Anchor,
                           version: int, history: seq<Event>, tactics: Tactics, links: Links,
                           proofs: seq<Evidence>, created: string, updated: string)

  datatype Rules = Rules(isTime: string -> bool, safeName: string -> bool, plain: string -> bool, concrete: Concrete)

  /** One call's view of the world: the clock, the registered validators with their digests, and
      the paths of the lane's verified PASS receipts by receipt name and validator. */
  datatype Env = Env(now: string, registry: map<string, string>, receipts: Receipts)

  datatype Refused =
    | LegacyGoal | RedirectRequired | BadEnrolment | LaneImmutable | EnrolledDoneWhenImmutable | EnrolledAtImmutable
    | InterviewImmutable | ItemsImmutable | ProofsGated | LaneNotDerived | LaneTaken | DoneGated
    | NotFound | Invalid | NoChange | Incomplete | AlreadyTransferred | Exhausted | NotHeld | AskUnknown

  // ---------------------------------------------------------------- names and rendering

  /** The durable lane name: the second component, or the first when there is none. */
  function LaneOf(ref: string): string {
    var parts := Split(ref, ':');
    if |parts| >= 2 && parts[1] != "" then parts[1] else parts[0]
  }

  function Texts(items: seq<Item>): (r: seq<string>)
    ensures |r| == |items|
    ensures forall k :: 0 <= k < |items| ==> r[k] == Strip(items[k].text)
  {
    seq(|items|, k requires 0 <= k < |items| => Strip(items[k].text))
  }

  function Render(items: seq<Item>): string { Join(Texts(items), "; ") }

  // ---------------------------------------------------------------- the enrolment contract

  predicate IsSha(s: string) {
    |s| == 64 && forall c :: c in s ==> '0' <= c <= '9' || 'a' <= c <= 'f'
  }

  predicate ProvenanceOk(p: string) {
    || (StartsWith(p, "operator:") && !Blank(p[9..]))
    || (StartsWith(p, "source:") && !Blank(p[7..]))
  }

  predicate InterviewOk(rules: Rules, i: Interview) {
    && !Blank(i.name) && rules.isTime(i.completedAt) && IsSha(i.answers)
    && |i.provenance| == 4 && forall p :: p in i.provenance ==> ProvenanceOk(p)
  }

  predicate ItemOk(rules: Rules, i: Item) {
    !Blank(i.id) && !Blank(i.text) && !Blank(i.validator) && !Blank(i.receipt) && rules.safeName(i.receipt)
  }

  predicate ItemRegistered(registry: map<string, string>, i: Item) {
    i.validator in registry && (i.pin == "" || registry[i.validator] == i.pin)
  }

  predicate DistinctIds(items: seq<Item>) {
    forall j, k :: 0 <= j < k < |items| ==> items[j].id != items[k].id
  }

  predicate DistinctReceipts(items: seq<Item>) {
    forall j, k :: 0 <= j < k < |items| ==> items[j].receipt != items[k].receipt
  }

  predicate ItemsOk(rules: Rules, items: seq<Item>) {
    && items != []
    && (forall i :: i in items ==> ItemOk(rules, i))
    && DistinctIds(items)
    && DistinctReceipts(items)
  }

  /** The frozen inventory: an answered interview, well-formed items, and texts generated from them. */
  predicate Enrolled(rules: Rules, a: Anchor, doneWhen: string) {
    && a.interview.Some? && InterviewOk(rules, a.interview.value)
    && ItemsOk(rules, a.items)
    && Strip(doneWhen) == Render(a.items)
    && (a.doneWhen == "" || a.doneWhen == Render(a.items))
  }

  predicate Registered(registry: map<string, string>, items: seq<Item>) {
    forall i :: i in items ==> ItemRegistered(registry, i)
  }

  // ---------------------------------------------------------------- the guarded upsert

  /** The powers a mutator grants its own write. */
  datatype Powers = Powers(clearAsks: bool, strategic: bool, metadata: bool, done: bool, proofs: bool, legacy: bool)

  const Routine := Powers(false, false, false, false, false, false)

  function Find(records: seq<Record>, ref: string): (r: Option<Record>)
    ensures r.Some? ==> r.value in records && r.value.ref == ref
    ensures r.None? ==> forall x :: x in records ==> x.ref != ref
  {
    if records == [] then None else if records[0].ref == ref then Some(records[0]) else Find(records[1..], ref)
  }

  function Without(records: seq<Record>, ref: string): (r: seq<Record>)
    ensures forall x :: x in r <==> x in records && x.ref != ref
  {
    if records == [] then []
    else if records[0].ref == ref then Without(records[1..], ref) else [records[0]] + Without(records[1..], ref)
  }

  function Trim(d: Direction): Direction {
    Direction(Strip(d.goal), Strip(d.doneWhen), Strip(d.intent), Strip(d.scope), d.policy)
  }

  predicate SameStrategy(a: Record, b: Record) {
    Trim(a.direction) == Trim(b.direction) && Strip(a.source) == Strip(b.source)
  }

  /** An empty pin in the incoming item is unspecified. */
  predicate ItemMatches(incoming: Item, stored: Item) {
    incoming.(pin := "") == stored.(pin := "") && (incoming.pin == "" || incoming.pin == stored.pin)
  }

  predicate ItemsMatch(incoming: seq<Item>, stored: seq<Item>) {
    |incoming| == |stored| && forall k :: 0 <= k < |stored| ==> ItemMatches(incoming[k], stored[k])
  }

  function Pin(registry: map<string, string>, i: Item): Item {
    if i.validator in registry then i.(pin := registry[i.validator]) else i
  }

  function Pinned(registry: map<string, string>, items: seq<Item>): (r: seq<Item>)
    ensures |r| == |items|
    ensures forall k :: 0 <= k < |items| ==> r[k] == Pin(registry, items[k])
  {
    seq(|items|, k requires 0 <= k < |items| => Pin(registry, items[k]))
  }

  predicate LaneConflict(records: seq<Record>, ref: string, lane: string) {
    exists r :: r in records && r.ref != ref && r.anchor.lane == lane
  }

  /** The checks that concern a first write. */
  function NewRefusal(rules: Rules, env: Env, rec: Record): Option<Refused> {
    if !(Enrolled(rules, rec.anchor, rec.direction.doneWhen) && Registered(env.registry, rec.anchor.items))
    then Some(BadEnrolment)
    else if !Blank(rec.anchor.lane) && Strip(rec.anchor.lane) != LaneOf(rec.ref) then Some(LaneNotDerived)
    else None
  }

  /** The checks that concern a rewrite of `prev`. */
  function RewriteRefusal(rules: Rules, prev: Record, rec: Record, p: Powers): Option<Refused> {
    if !Enrolled(rules, prev.anchor, prev.direction.doneWhen) && !p.legacy then Some(LegacyGoal)
    else if !SameStrategy(prev, rec) && !p.strategic then Some(RedirectRequired)
    else if !Blank(rec.anchor.lane) && Strip(rec.anchor.lane) != prev.anchor.lane then Some(LaneImmutable)
    else if rec.anchor.doneWhen != "" && rec.anchor.doneWhen != prev.anchor.doneWhen
         then Some(EnrolledDoneWhenImmutable)
    else if rec.anchor.at != "" && rec.anchor.at != prev.anchor.at then Some(EnrolledAtImmutable)
    else if rec.anchor.interview != prev.anchor.interview then Some(InterviewImmutable)
    else if !ItemsMatch(rec.anchor.items, prev.anchor.items) then Some(ItemsImmutable)
    else if rec.proofs != prev.proofs && !p.proofs then Some(ProofsGated)
    else None
  }

  function Refusal(rules: Rules, env: Env, records: seq<Record>, rec: Record, p: Powers): Option<Refused> {
    var prev := Find(records, rec.ref);
    var first := if prev.None? then NewRefusal(rules, env, rec) else RewriteRefusal(rules, prev.value, rec, p);
    var lane := if prev.None? then LaneOf(rec.ref) else prev.value.anchor.lane;
    if first.Some? then first
    else if LaneConflict(records, rec.ref, lane) then Some(LaneTaken)
    else if IsDone(rec.status) && (prev.None? || rec.status != prev.value.status) && !p.done then Some(DoneGated)
    else None
  }

  /** The anchor of a first write. */
  function NewAnchor(env: Env, rec: Record): Anchor {
    Anchor(LaneOf(rec.ref), Render(rec.anchor.items), env.now, rec.anchor.interview,
           Pinned(env.registry, rec.anchor.items))
  }

  function NewRecord(env: Env, rec: Record): Record {
    rec.(anchor := NewAnchor(env, rec), created := env.now, updated := env.now)
  }

  function OrElse(s: string, fallback: string): string { if s != "" then s else fallback }

  /** Asks, retirements and hold data that a rewrite says nothing about are kept. */
  function KeptTactics(prev: Record, rec: Record, clearAsks: bool): Tactics {
    var t := rec.tactics;
    var keepHold := rec.status == prev.status && t.holdReason == "" && t.resumeAt == "";
    t.(asks := if t.asks == [] && !clearAsks then prev.tactics.asks else t.asks,
       retired := if t.retired == [] then prev.tactics.retired else t.retired,
       holdReason := if keepHold then prev.tactics.holdReason else t.holdReason,
       resumeAt := if keepHold then prev.tactics.resumeAt else t.resumeAt)
  }

  function Rewritten(env: Env, prev: Record, rec: Record, p: Powers): Record {
    rec.(anchor := prev.anchor,
         version := if p.metadata then rec.version else prev.version,
         history := if p.metadata then rec.history else prev.history,
         tactics := KeptTactics(prev, rec, p.clearAsks),
         links := Links(OrElse(rec.links.successorOf, prev.links.successorOf),
                        OrElse(rec.links.transferredTo, prev.links.transferredTo)),
         created := prev.created, updated := env.now)
  }

  function Stored(env: Env, records: seq<Record>, rec: Record, p: Powers): (r: Record)
    ensures r.ref == rec.ref
  {
    var prev := Find(records, rec.ref);
    if prev.None? then NewRecord(env, rec) else Rewritten(env, prev.value, rec, p)
  }

  function Put(records: seq<Record>, r: Record): seq<Record> { Without(records, r.ref) + [r] }

  datatype Outcome = Outcome(records: seq<Record>, refused: Option<Refused>)

  function Upsert(rules: Rules, env: Env, records: seq<Record>, rec: Record, p: Powers): Outcome {
    var refused := Refusal(rules, env, records, rec, p);
    if refused.Some? then Outcome(records, refused) else Outcome(Put(records, Stored(env, records, rec, p)), None)
  }

  // ---------------------------------------------------------------- the mutators

  /** The new values a redirect supplies; None keeps the current one. */
  datatype Change = Change(goal: Option<string>, doneWhen: Option<string>, intent: Option<string>,
                           scope: Option<string>, policy: Option<string>)

  datatype Selector = ByText(ask: string) | ByIndex(index: int) | All

  datatype Op =
    | UpsertGoal(rec: Record, clearAsks: bool)
    | Redirect(ref: string, reason: string, change: Change, source: Option<string>)
    | ReviewRestart(ref: string, previous: string, restarted: string, behavior: string)
    | UpdateNow(ref: string, now: Option<string>, status: Option<Status>, lastVerified: Option<string>)
    | GatePassed(ref: string, gateNow: string, verified: string, evidence: seq<Evidence>)
    | Hold(ref: string, reason: string, resumeAt: string)
    | Transfer(ref: string, backend: string, digest: string, reason: string, resumeAt: string)
    | Resume(ref: string)
    | AddAsk(ref: string, ask: string)
    | ResolveAsk(ref: string, selector: Selector, byMonitor: bool, basis: Option<string>, citation: Option<string>,
                 authority: string)
    | Close(ref: string, listed: bool, evidence: seq<Evidence>, administrative: bool, reason: string)

  /** What a mutator does once it has read the store: refuse, change nothing, write one
      record, write two records one after the other, or remove one. */
  datatype Plan =
    | Refuse(why: Refused) | Nothing
    | Write(rec: Record, powers: Powers) | WriteBoth(first: Record, second: Record)
    | Remove(ref: string)

  function Get<T>(o: Option<T>, d: T): T { if o.Some? then o.value else d }

  function Amend(d: Direction, c: Change): Direction {
    Direction(Get(c.goal, d.goal), Get(c.doneWhen, d.doneWhen), Get(c.intent, d.intent), Get(c.scope, d.scope),
              Get(c.policy, d.policy))
  }

  /** The wording rules every prospective goal meets. */
  predicate Worded(rec: Record) {
    !Blank(rec.direction.goal) && WordCount(rec.direction.goal) >= 6 && !Blank(rec.direction.doneWhen) &&
      !Blank(rec.source)
  }

  function PlanRedirect(rules: Rules, env: Env, prev: Record, op: Op): Plan
    requires op.Redirect?
  {
    var next := prev.(direction := Amend(prev.direction, op.change), source := Get(op.source, prev.source),
                     status := if IsDone(prev.status) then Working else prev.status,
                     tactics := if IsDone(prev.status) then prev.tactics.(lastVerified := "") else prev.tactics);
    if op.change.doneWhen.Some? && Strip(op.change.doneWhen.value) != Strip(prev.direction.doneWhen)
    then Refuse(EnrolledDoneWhenImmutable)
    else if SameStrategy(prev, next) then Refuse(NoChange)
    else if !Worded(next) || (prev.anchor.interview.Some? && !Enrolled(rules, next.anchor, next.direction.doneWhen))
         then Refuse(Invalid)
    else Write(next.(version := prev.version + 1,
                     history := prev.history + [Revised(prev.direction, env.now, op.reason)]),
               Routine.(strategic := true, metadata := true, legacy := true))
  }

  function Digit(n: nat): string requires n < 10 { [['0', '1', '2', '3', '4', '5', '6', '7', '8', '9'][n]] }

  function Number(n: nat): string requires n < 100 {
    if n < 10 then Digit(n) else Digit(n / 10) + Digit(n % 10)
  }

  function NonEmpty(parts: seq<string>): seq<string> {
    if parts == [] then [] else (if parts[0] != "" then [parts[0]] else []) + NonEmpty(parts[1..])
  }

  /** `<host>:<lane>-xfer[n]:<pane>`. */
  function Candidate(ref: string, attempt: nat): string
    requires 1 <= attempt < 100
  {
    var parts := Split(ref, ':');
    var suffix := if attempt == 1 then "-xfer" else "-xfer" + Number(attempt);
    Join(NonEmpty([if |parts| >= 2 then parts[0] else "", LaneOf(ref) + suffix,
                   if |parts| >= 3 then parts[2] else ""]), ":")
  }

  function Refs(records: seq<Record>): set<string> { set r | r in records :: r.ref }

  /** The first candidate that is not taken, if one of the 99 is free. */
  function SuccessorRef(ref: string, taken: set<string>, attempt: nat): (r: Option<string>)
    requires 1 <= attempt <= 100
    ensures r.Some? ==> r.value !in taken
    decreases 100 - attempt
  {
    if attempt == 100 then None
    else if Candidate(ref, attempt) !in taken then Some(Candidate(ref, attempt))
    else SuccessorRef(ref, taken, attempt + 1)
  }

  function Successor(prev: Record, ref: string, op: Op): (r: Record)
    requires op.Transfer?
    ensures r.ref == ref
  {
    Record(ref, prev.direction, prev.source + "; digest:" + Strip(op.digest), Idle,
           Anchor("", "", "", prev.anchor.interview, prev.anchor.items), 1, [],
           Tactics("scaffolded by transfer to " + op.backend + ": " + op.reason, "", "", [], [], "", ""),
           Links(op.ref, ""), [], "", "")
  }

  function PlanTransfer(rules: Rules, records: seq<Record>, prev: Record, op: Op): Plan
    requires op.Transfer?
  {
    if prev.links.transferredTo != "" then Refuse(AlreadyTransferred)
    else
      var ref := SuccessorRef(op.ref, Refs(records), 1);
      if ref.None? then Refuse(Exhausted)
      else
        var second := Successor(prev, ref.value, op);
        if !Worded(second) || !Enrolled(rules, second.anchor, second.direction.doneWhen) then Refuse(Invalid)
        else WriteBoth(prev.(status := Held, tactics := prev.tactics.(holdReason := op.reason, resumeAt := op.resumeAt),
                            links := prev.links.(transferredTo := ref.value)), second)
  }

  function Drop(asks: seq<string>, ask: string): (r: seq<string>)
    ensures forall a :: a in r <==> a in asks && a != ask
  {
    if asks == [] then [] else (if asks[0] == ask then [] else [asks[0]]) + Drop(asks[1..], ask)
  }

  function Retire(env: Env, op: Op, ask: string): Retirement
    requires op.ResolveAsk?
  {
    var answered := op.basis.Some? && !Blank(op.basis.value);
    if op.byMonitor
    then Retirement(ask, RetiredByMonitor, Get(op.basis, ""), Get(op.citation, ""), op.authority, env.now)
    else if answered
         then Retirement(ask, ResolvedByOperator, Get(op.basis, ""), Get(op.citation, "operator-ruling"), op.authority,
                         env.now)
    else Retirement(ask, DismissedByOperator, "The operator retired the ask without recording an answer.",
                    Get(op.citation, "operator-dismissal"), op.authority, env.now)
  }

  function PlanResolve(rules: Rules, env: Env, prev: Record, op: Op): Plan
    requires op.ResolveAsk?
  {
    var asks := prev.tactics.asks;
    if op.selector.ByText? && op.selector.ask !in asks then Refuse(AskUnknown)
    else if op.selector.ByIndex? && !(0 <= op.selector.index < |asks|) then Refuse(AskUnknown)
    else
      var removed := match op.selector case All => asks case ByText(a) => [a] case ByIndex(k) => [asks[k]];
      var remaining := match op.selector
                       case All => []
                       case ByText(a) => Drop(asks, a)
                       case ByIndex(k) => asks[..k] + asks[k + 1..];
      var cited := op.basis.Some? && !Blank(op.basis.value) && op.citation.Some? && !Blank(op.citation.value) &&
        !Blank(op.authority)
                   && rules.plain(op.basis.value) && rules.plain(op.authority);
      if op.byMonitor && !cited then Refuse(Invalid)
      else
        var retired := seq(|removed|, k requires 0 <= k < |removed| => Retire(env, op, removed[k]));
        Write(prev.(tactics := prev.tactics.(asks := remaining, retired := prev.tactics.retired + retired)),
              Routine.(clearAsks := true))
  }

  function PlanClose(rules: Rules, env: Env, prev: Record, op: Op): Plan
    requires op.Close?
  {
    if op.administrative then (if Blank(op.reason) then Refuse(Invalid) else Remove(op.ref))
    else if op.listed || !prev.status.DonePendingClose? then Refuse(Invalid)
    else if !(Enrolled(rules, prev.anchor, prev.direction.doneWhen) && Registered(env.registry, prev.anchor.items))
         then Refuse(BadEnrolment)
    else if GateProofs(rules.concrete, prev.anchor.items, if op.evidence == [] then prev.proofs else op.evidence,
                       env.receipts).None? then Refuse(Incomplete)
    else Remove(op.ref)
  }

  function PlanGate(rules: Rules, env: Env, prev: Record, op: Op): Plan
    requires op.GatePassed?
  {
    if !(Enrolled(rules, prev.anchor, prev.direction.doneWhen) && Registered(env.registry, prev.anchor.items))
    then Refuse(BadEnrolment)
    else
      var proofs := GateProofs(rules.concrete, prev.anchor.items, op.evidence, env.receipts);
      if proofs.None? then Refuse(Incomplete)
      else Write(prev.(status := DonePendingClose,
                       tactics := prev.tactics.(now := op.gateNow,
                                                lastVerified := op.verified), proofs := proofs.value),
                 Routine.(done := true, proofs := true))
  }

  /** The argument checks made before the store is read. */
  predicate ArgumentsOk(rules: Rules, op: Op) {
    match op
    case UpsertGoal(rec, _) => Worded(rec)
    case Redirect(_, reason, _, _) => !Blank(reason)
    case UpdateNow(_, _, status, _) => status.Some? ==> !IsDone(status.value)
    case Hold(_, reason, resumeAt) => !Blank(reason) && (resumeAt == "" || rules.isTime(resumeAt))
    case Transfer(_, backend, digest, reason, resumeAt) =>
      (backend == "claude" || backend == "codex") && !Blank(digest) && !Blank(reason) &&
        (resumeAt == "" || rules.isTime(resumeAt))
    case _ => true
  }

  function PlanFor(rules: Rules, env: Env, records: seq<Record>, prev: Record, op: Op): Plan
    requires !op.UpsertGoal? && prev.ref == op.ref
  {
    match op
    case Redirect(_, _, _, _) => PlanRedirect(rules, env, prev, op)
    case ReviewRestart(_, previous, restarted, behavior) =>
      Write(prev.(history := prev.history + [ReviewRestarted(previous, restarted, behavior, env.now)]),
            Routine.(metadata := true))
    case UpdateNow(_, now, status, verified) =>
      Write(prev.(status := Get(status, prev.status),
                 tactics := prev.tactics.(now := Get(now, prev.tactics.now),
                                          lastVerified := Get(verified, prev.tactics.lastVerified))), Routine)
    case GatePassed(_, _, _, _) => PlanGate(rules, env, prev, op)
    case Hold(_, reason, resumeAt) =>
      Write(prev.(status := Held, tactics := prev.tactics.(holdReason := reason, resumeAt := resumeAt)), Routine)
    case Transfer(_, _, _, _, _) => PlanTransfer(rules, records, prev, op)
    case Resume(_) =>
      if !prev.status.Held? then Refuse(NotHeld)
      else Write(prev.(status := Working, tactics := prev.tactics.(holdReason := "", resumeAt := "")), Routine)
    case AddAsk(_, ask) =>
      if ask in prev.tactics.asks then Nothing
      else Write(prev.(tactics := prev.tactics.(asks := prev.tactics.asks + [ask])), Routine)
    case ResolveAsk(_, _, _, _, _, _) => PlanResolve(rules, env, prev, op)
    case Close(_, _, _, _, _) => PlanClose(rules, env, prev, op)
  }

  function PlanOf(rules: Rules, env: Env, records: seq<Record>, op: Op): Plan {
    if !ArgumentsOk(rules, op) then Refuse(Invalid)
    else if op.UpsertGoal? then Write(op.rec, Routine.(clearAsks := op.clearAsks))
    else
      var prev := Find(records, op.ref);
      if prev.None? then Refuse(NotFound) else PlanFor(rules, env, records, prev.value, op)
  }

  function Carry(rules: Rules, env: Env, records: seq<Record>, plan: Plan): Outcome {
    match plan
    case Refuse(why) => Outcome(records, Some(why))
    case Nothing => Outcome(records, None)
    case Write(rec, powers) => Upsert(rules, env, records, rec, powers)
    case WriteBoth(first, second) =>
      var one := Upsert(rules, env, records, first, Routine);
      if one.refused.Some? then one else Upsert(rules, env, one.records, second, Routine)
    case Remove(ref) => Outcome(Without(records, ref), None)
  }

  /** One mutator call. */
  function Apply(rules: Rules, env: Env, records: seq<Record>, op: Op): Outcome {
    Carry(rules, env, records, PlanOf(rules, env, records, op))
  }
}
