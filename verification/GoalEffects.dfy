/** What every accepted mutator leaves of the lane it writes, on the stored fields alone, and that it touches no other
    lane; and when it is accepted. */
module GoalEffects {
  import opened Basics
  import opened Text
  import opened CompletionGate
  import opened Goals
  import opened GoalRuns
  import opened GoalTheorems

  // ---------------------------------------------------------------- the fields after each call

  /** Held with its reason and time; the rest as it was. */
  predicate HoldLeaves(env: Env, prev: Record, next: Record, reason: string, resumeAt: string) {
    next == prev.(status := Held, tactics := prev.tactics.(holdReason := reason, resumeAt := resumeAt),
                  updated := env.now)
  }

  /** Working, from a hold only, with the hold forgotten. */
  predicate ResumeLeaves(env: Env, prev: Record, next: Record) {
    && prev.status == Held
    && next == prev.(status := Working, tactics := prev.tactics.(holdReason := "", resumeAt := ""), updated := env.now)
  }

  function Or<T>(o: Option<T>, current: T): T { match o case None => current case Some(v) => v }

  /** Each supplied value in its own field. */
  predicate UpdateLeaves(env: Env, prev: Record, next: Record, now: Option<string>, status: Option<Status>,
                         verified: Option<string>) {
    && next.status == Or(status, prev.status) && next.tactics.now == Or(now, prev.tactics.now)
    && next.tactics.lastVerified == Or(verified, prev.tactics.lastVerified) && next.updated == env.now
    && next == prev.(status := next.status, updated := next.updated,
                     tactics := prev.tactics.(now := next.tactics.now, lastVerified := next.tactics.lastVerified))
  }

  /** A new ask goes behind the open ones; a known one changes nothing at all. */
  predicate AskLeaves(env: Env, prev: Record, next: Record, ask: string) {
    if ask in prev.tactics.asks then next == prev
    else next == prev.(tactics := prev.tactics.(asks := prev.tactics.asks + [ask]), updated := env.now)
  }

  predicate Rising(at: seq<nat>) { forall j, k :: 0 <= j < k < |at| ==> at[j] < at[k] }

  predicate Covers(asks: seq<string>, ask: string, at: seq<nat>) {
    forall k :: 0 <= k < |asks| && asks[k] != ask ==> k in at
  }

  /** Every ask but this one, each as often as before and in the same order; `at` tells where each stood. */
  predicate LeftAt(asks: seq<string>, ask: string, open: seq<string>, at: seq<nat>) {
    && Rising(at) && Covers(asks, ask, at) && |at| == |open|
    && forall j :: 0 <= j < |at| ==> at[j] < |asks| && open[j] == asks[at[j]] && open[j] != ask
  }

  ghost predicate LeftBy(asks: seq<string>, ask: string, open: seq<string>) { exists at :: LeftAt(asks, ask, open, at) }

  /** The asks a selector retires, one entry each. */
  ghost predicate Selects(asks: seq<string>, s: Selector, retired: seq<string>, open: seq<string>) {
    match s
    case All => retired == asks && open == []
    case ByIndex(k) => 0 <= k < |asks| && retired == [asks[k]] && open == asks[..k] + asks[k + 1..]
    case ByText(a) => a in asks && retired == [a] && LeftBy(asks, a, open)
  }

  /** What a retirement records of who decided, and on what basis. */
  predicate RetiredAs(env: Env, op: Op, ask: string, r: Retirement)
    requires op.ResolveAsk?
  {
    var answered := op.basis.Some? && !Blank(op.basis.value);
    && r.ask == ask && r.authority == op.authority && r.at == env.now
    && (if op.byMonitor then r.state == RetiredByMonitor && Some(r.basis) == op.basis && Some(r.citation) == op.citation
        else if answered
        then r.state == ResolvedByOperator && Some(r.basis) == op.basis &&
          r.citation == Or(op.citation, "operator-ruling")
        else
          && r.state == DismissedByOperator && r.basis == "The operator retired the ask without recording an answer."
          && r.citation == Or(op.citation, "operator-dismissal"))
  }

  ghost predicate ResolveLeaves(env: Env, prev: Record, next: Record, op: Op)
    requires op.ResolveAsk?
  {
    exists retired, open, entries: seq<Retirement> ::
      && Selects(prev.tactics.asks, op.selector, retired, open)
      && |entries| == |retired| && (forall k :: 0 <= k < |retired| ==> RetiredAs(env, op, retired[k], entries[k]))
      && next == prev.(tactics := prev.tactics.(asks := open, retired := prev.tactics.retired + entries),
                       updated := env.now)
  }

  /** Pending close, with one stored proof per item, each backed by its receipt. */
  predicate GateLeaves(env: Env, prev: Record, next: Record, op: Op)
    requires op.GatePassed?
  {
    && |next.proofs| == |prev.anchor.items|
    && (forall k :: 0 <= k < |prev.anchor.items| ==>
        BackedProof(env, op.evidence, prev.anchor.items[k], next.proofs[k]))
    && next == prev.(status := DonePendingClose,
                     tactics := prev.tactics.(now := op.gateNow, lastVerified := op.verified),
                     proofs := next.proofs, updated := env.now)
  }

  /** A claimed passing proof of the item, now citing the item's verified receipt. */
  predicate BackedProof(env: Env, claimed: seq<Evidence>, i: Item, proof: Evidence) {
    && (i.receipt, i.validator) in env.receipts
    && exists e :: e in claimed && Names(e, i) && e.pass
                   && proof == e.(artifact := true, citation := env.receipts[(i.receipt, i.validator)])
  }

  predicate RestartLeaves(env: Env, prev: Record, next: Record, op: Op)
    requires op.ReviewRestart?
  {
    next == prev.(history := prev.history + [ReviewRestarted(op.previous, op.restarted, op.behavior, env.now)],
                  updated := env.now)
  }

  /** The new direction, one version on, with the prior one recorded; a done lane is back at work, unverified. */
  predicate RedirectLeaves(env: Env, prev: Record, next: Record, op: Op)
    requires op.Redirect?
  {
    var d, c := prev.direction, op.change;
    var done := prev.status == DonePendingClose || prev.status == DonePendingVerification;
    next == prev.(
      direction := Direction(Or(c.goal, d.goal), Or(c.doneWhen, d.doneWhen), Or(c.intent, d.intent),
                             Or(c.scope, d.scope), Or(c.policy, d.policy)),
      source := Or(op.source, prev.source), status := if done then Working else prev.status,
      tactics := if done then prev.tactics.(lastVerified := "") else prev.tactics,
      version := prev.version + 1, history := prev.history + [Revised(d, env.now, op.reason)], updated := env.now)
  }

  /** An upsert of a stored lane: the record as given, but with the frozen anchor, version, history and creation time of
      the stored one, and with its asks, retirements, hold and links where the given record is silent. */
  predicate UpsertLeaves(env: Env, prev: Record, next: Record, op: Op)
    requires op.UpsertGoal?
  {
    var rec, t, p := op.rec, op.rec.tactics, prev.tactics;
    var silent := rec.status == prev.status && t.holdReason == "" && t.resumeAt == "";
    && next.anchor == prev.anchor && next.version == prev.version && next.history == prev.history
    && next.created == prev.created && next.updated == env.now
    && next.direction == rec.direction && next.source == rec.source && next.status == rec.status &&
      next.proofs == rec.proofs
    && next.ref == rec.ref
    && next.tactics == Tactics(t.now, t.lastVerified, t.needs,
                               if t.asks == [] && !op.clearAsks then p.asks
                               else t.asks, if t.retired == [] then p.retired else t.retired,
                               if silent then p.holdReason else t.holdReason, if silent then p.resumeAt else t.resumeAt)
    && next.links.successorOf == (if rec.links.successorOf == "" then prev.links.successorOf else rec.links.successorOf)
    && next.links.transferredTo ==
      (if rec.links.transferredTo == "" then prev.links.transferredTo else rec.links.transferredTo)
  }

  /** The items' texts, stripped and separated by semicolons. */
  ghost predicate Renders(s: string, items: seq<Item>) {
    exists texts: seq<string> ::
      && |texts| == |items| && (forall k :: 0 <= k < |items| ==> texts[k] == Strip(items[k].text)) &&
        s == Join(texts, "; ")
  }

  lemma RenderRenders(items: seq<Item>)
    ensures Renders(Render(items), items)
  {
    var texts := Texts(items);
  }

  /** The item as given, under the registry's pin if its validator is registered. */
  predicate PinnedAs(env: Env, given: Item, stored: Item) {
    stored == given.(pin := if given.validator in env.registry then env.registry[given.validator] else given.pin)
  }

  /** A first upsert freezes the lane name, the conditions generated from the items, the time and the registry's pins.
      */
  ghost predicate EnrolLeaves(env: Env, next: Record, op: Op)
    requires op.UpsertGoal?
  {
    var rec, items := op.rec, next.anchor.items;
    && next == rec.(anchor := next.anchor, created := env.now, updated := env.now)
    && next.anchor.lane == LaneOf(rec.ref) && Renders(next.anchor.doneWhen, rec.anchor.items) &&
      next.anchor.at == env.now
    && next.anchor.interview == rec.anchor.interview && |items| == |rec.anchor.items|
    && forall k :: 0 <= k < |items| ==>
         PinnedAs(env, rec.anchor.items[k], items[k])
  }

  ghost predicate Leaves(env: Env, prev: Record, next: Record, op: Op) {
    match op
    case UpsertGoal(_, _) => UpsertLeaves(env, prev, next, op)
    case Redirect(_, _, _, _) => RedirectLeaves(env, prev, next, op)
    case ReviewRestart(_, _, _, _) => RestartLeaves(env, prev, next, op)
    case UpdateNow(_, now, status, verified) => UpdateLeaves(env, prev, next, now, status, verified)
    case GatePassed(_, _, _, _) => GateLeaves(env, prev, next, op)
    case Hold(_, reason, resumeAt) => HoldLeaves(env, prev, next, reason, resumeAt)
    case Resume(_) => ResumeLeaves(env, prev, next)
    case AddAsk(_, ask) => AskLeaves(env, prev, next, ask)
    case ResolveAsk(_, _, _, _, _, _) => ResolveLeaves(env, prev, next, op)
    case _ => false
  }

  function Lane(op: Op): string { if op.UpsertGoal? then op.rec.ref else op.ref }

  predicate SingleWrite(op: Op) { !op.Transfer? && !op.Close? }

  /** The lane named is written as its kind says, and every other lane is as it was. */
  ghost predicate Effect(env: Env, before: seq<Record>, after: seq<Record>, op: Op)
    requires SingleWrite(op)
  {
    && (forall ref :: ref != Lane(op) ==> Find(after, ref) == Find(before, ref))
    && Find(after, Lane(op)).Some?
    && (if Find(before, Lane(op)).Some? then Leaves(env, Find(before, Lane(op)).value, Find(after, Lane(op)).value, op)
        else op.UpsertGoal? && EnrolLeaves(env, Find(after, Lane(op)).value, op))
  }

  // ---------------------------------------------------------------- proofs, mutator by mutator

  lemma HoldEffect(rules: Rules, env: Env, records: seq<Record>, prev: Record, op: Op)
    requires op.Hold? && ArgumentsOk(rules, op) && prev.ref == op.ref
    ensures var plan := PlanFor(rules, env, records, prev, op); Leaves(env, prev,
                                                                       Rewritten(env, prev, plan.rec, plan.powers), op)
  {
    assert op.reason != "" by { assert Blank(""); }
  }

  lemma ResumeEffect(rules: Rules, env: Env, records: seq<Record>, prev: Record, op: Op)
    requires op.Resume? && prev.ref == op.ref && PlanFor(rules, env, records, prev, op).Write?
    ensures var plan := PlanFor(rules, env, records, prev, op); Leaves(env, prev,
                                                                       Rewritten(env, prev, plan.rec, plan.powers), op)
  {
  }

  lemma UpdateEffect(rules: Rules, env: Env, records: seq<Record>, prev: Record, op: Op)
    requires op.UpdateNow? && prev.ref == op.ref
    ensures var plan := PlanFor(rules, env, records, prev, op); Leaves(env, prev,
                                                                       Rewritten(env, prev, plan.rec, plan.powers), op)
  {
  }

  lemma AskEffect(rules: Rules, env: Env, records: seq<Record>, prev: Record, op: Op)
    requires op.AddAsk? && prev.ref == op.ref && PlanFor(rules, env, records, prev, op).Write?
    ensures var plan := PlanFor(rules, env, records, prev, op); Leaves(env, prev,
                                                                       Rewritten(env, prev, plan.rec, plan.powers), op)
  {
  }

  function RetiredBy(asks: seq<string>, s: Selector): seq<string>
    requires s.ByIndex? ==> 0 <= s.index < |asks|
  {
    match s case All => asks case ByText(a) => [a] case ByIndex(k) => [asks[k]]
  }

  function Entries(env: Env, op: Op, retired: seq<string>): (r: seq<Retirement>)
    requires op.ResolveAsk?
    ensures |r| == |retired| && forall k :: 0 <= k < |r| ==> r[k] == Retire(env, op, retired[k])
  {
    seq(|retired|, k requires 0 <= k < |retired| => Retire(env, op, retired[k]))
  }

  lemma RetireRecords(env: Env, op: Op, ask: string)
    requires op.ResolveAsk? && (op.byMonitor ==> op.basis.Some? && op.citation.Some?)
    ensures RetiredAs(env, op, ask, Retire(env, op, ask))
  {
  }

  function Shift(at: seq<nat>): (r: seq<nat>)
    ensures |r| == |at| && forall k :: 0 <= k < |at| ==> r[k] == at[k] + 1
  {
    seq(|at|, k requires 0 <= k < |at| => at[k] + 1)
  }

  lemma ShiftReaches(asks: seq<string>, ask: string, at: seq<nat>, k: nat)
    requires asks != [] && Covers(asks[1..], ask, at) && 1 <= k < |asks| && asks[k] != ask
    ensures k in Shift(at)
  {
    assert asks[1..][k - 1] == asks[k];
    var j :| 0 <= j < |at| && at[j] == k - 1;
    assert Shift(at)[j] == k;
  }

  lemma LeftSkips(asks: seq<string>, ask: string, open: seq<string>, at: seq<nat>)
    requires asks != [] && asks[0] == ask && LeftAt(asks[1..], ask, open, at)
    ensures LeftAt(asks, ask, open, Shift(at))
  {
    RisingFrom(at);
    CoversFrom(asks, ask, at);
  }

  lemma RisingFrom(at: seq<nat>)
    requires Rising(at)
    ensures Rising(Shift(at)) && Rising([0] + Shift(at))
  {
    var all := [0] + Shift(at);
    forall j, k | 0 <= j < k < |all| ensures all[j] < all[k] {
      if j > 0 { assert at[j - 1] < at[k - 1]; }
    }
  }

  lemma CoversFrom(asks: seq<string>, ask: string, at: seq<nat>)
    requires asks != [] && Covers(asks[1..], ask, at)
    ensures Covers(asks, ask, [0] + Shift(at)) && (asks[0] == ask ==> Covers(asks, ask, Shift(at)))
  {
    var all, shifted := [0] + Shift(at), Shift(at);
    forall k | 1 <= k < |asks| && asks[k] != ask ensures k in shifted && k in all { ShiftReaches(asks, ask, at, k); }
    assert all[0] == 0;
  }

  lemma LeftTakes(asks: seq<string>, ask: string, open: seq<string>, at: seq<nat>)
    requires asks != [] && asks[0] != ask && LeftAt(asks[1..], ask, open, at)
    ensures LeftAt(asks, ask, [asks[0]] + open, [0] + Shift(at))
  {
    var all, now := [0] + Shift(at), [asks[0]] + open;
    RisingFrom(at);
    CoversFrom(asks, ask, at);
    forall j | 0 <= j < |all| ensures all[j] < |asks| && now[j] == asks[all[j]] && now[j] != ask {
      if j > 0 {
        assert all[j] == at[j - 1] + 1 && now[j] == open[j - 1];
        assert asks[1..][at[j - 1]] == asks[at[j - 1] + 1];
      }
    }
  }

  lemma {:induction false} DropLeaves(asks: seq<string>, ask: string) returns (at: seq<nat>)
    ensures LeftAt(asks, ask, Drop(asks, ask), at)
  {
    at := [];
    if asks != [] {
      var rest := DropLeaves(asks[1..], ask);
      at := if asks[0] == ask then Shift(rest) else [0] + Shift(rest);
      if asks[0] == ask { LeftSkips(asks, ask, Drop(asks[1..], ask), rest); }
      else { LeftTakes(asks, ask, Drop(asks[1..], ask), rest); }
    }
  }

  /** A resolve plan in full. */
  lemma ResolvePlan(rules: Rules, env: Env, prev: Record, op: Op)
    requires op.ResolveAsk? && PlanResolve(rules, env, prev, op).Write?
    ensures op.selector.ByIndex? ==> 0 <= op.selector.index < |prev.tactics.asks|
    ensures op.byMonitor ==> op.basis.Some? && op.citation.Some?
    ensures var plan, retired := PlanResolve(rules, env, prev, op), RetiredBy(prev.tactics.asks, op.selector);
            && plan.powers == Routine.(clearAsks := true) &&
              Selects(prev.tactics.asks, op.selector, retired, plan.rec.tactics.asks)
            && plan.rec ==
              prev.(tactics := prev.tactics.(asks := plan.rec.tactics.asks,
                                             retired := prev.tactics.retired + Entries(env, op, retired)))
  {
    if op.selector.ByText? { var at := DropLeaves(prev.tactics.asks, op.selector.ask); }
  }

  lemma ClearedRewrite(env: Env, prev: Record, open: seq<string>, entries: seq<Retirement>)
    ensures var rec := prev.(tactics := prev.tactics.(asks := open, retired := prev.tactics.retired + entries));
            Rewritten(env, prev, rec, Routine.(clearAsks := true)) == rec.(updated := env.now)
  {
    if prev.tactics.retired + entries == [] { assert prev.tactics.retired == []; }
  }

  lemma ResolveEffect(rules: Rules, env: Env, prev: Record, op: Op)
    requires op.ResolveAsk? && PlanResolve(rules, env, prev, op).Write?
    ensures var plan := PlanResolve(rules, env, prev, op);
            ResolveLeaves(env, prev, Rewritten(env, prev, plan.rec, plan.powers), op)
  {
    ResolvePlan(rules, env, prev, op);
    var plan, retired := PlanResolve(rules, env, prev, op), RetiredBy(prev.tactics.asks, op.selector);
    var open, entries := plan.rec.tactics.asks, Entries(env, op, retired);
    forall k | 0 <= k < |retired| ensures RetiredAs(env, op, retired[k], entries[k]) {
      RetireRecords(env, op, retired[k]);
    }
    ClearedRewrite(env, prev, open, entries);
    ResolvedAs(env, prev, Rewritten(env, prev, plan.rec, plan.powers), op, retired, open, entries);
  }

  lemma ResolvedAs(env: Env, prev: Record, next: Record, op: Op, retired: seq<string>, open: seq<string>,
                   entries: seq<Retirement>)
    requires op.ResolveAsk? && Selects(prev.tactics.asks, op.selector, retired, open) && |entries| == |retired|
    requires forall k :: 0 <= k < |retired| ==> RetiredAs(env, op, retired[k], entries[k])
    requires next ==
             prev.(tactics := prev.tactics.(asks := open, retired := prev.tactics.retired + entries),
                   updated := env.now)
    ensures ResolveLeaves(env, prev, next, op)
  {
  }

  lemma RestartEffect(rules: Rules, env: Env, records: seq<Record>, prev: Record, op: Op)
    requires op.ReviewRestart? && prev.ref == op.ref
    ensures var plan := PlanFor(rules, env, records, prev, op); Leaves(env, prev,
                                                                       Rewritten(env, prev, plan.rec, plan.powers), op)
  {
  }

  lemma RedirectEffect(rules: Rules, env: Env, prev: Record, op: Op)
    requires op.Redirect? && PlanRedirect(rules, env, prev, op).Write?
    ensures var plan := PlanRedirect(rules, env, prev, op); RedirectLeaves(env, prev,
                                                                           Rewritten(env, prev, plan.rec,
                                                                               plan.powers), op)
  {
  }

  lemma FirstClaimBacks(claimed: seq<Evidence>, i: Item, receipts: Receipts, proof: Evidence)
    requires FirstClaim(claimed, i).Some? && (i.receipt, i.validator) in receipts
    requires proof == FirstClaim(claimed, i).value.(artifact := true, citation := receipts[(i.receipt, i.validator)])
    ensures exists e :: e in claimed && Names(e, i) && e.pass
                        && proof == e.(artifact := true, citation := receipts[(i.receipt, i.validator)])
  {
  }

  lemma {:induction false} BackedOneByOne(env: Env, items: seq<Item>, claimed: seq<Evidence>, k: nat)
    requires Backed(items, claimed, env.receipts).Some? && k < |items|
    ensures |Backed(items, claimed, env.receipts).value| == |items|
    ensures BackedProof(env, claimed, items[k], Backed(items, claimed, env.receipts).value[k])
  {
    var front, last := items[..|items| - 1], items[|items| - 1];
    if front != [] { BackedOneByOne(env, front, claimed, if k < |front| then k else 0); }
    if k == |front| { FirstClaimBacks(claimed, last, env.receipts, Backed(items, claimed, env.receipts).value[k]); }
  }

  lemma GateEffect(rules: Rules, env: Env, prev: Record, op: Op)
    requires op.GatePassed? && PlanGate(rules, env, prev, op).Write?
    ensures var plan := PlanGate(rules, env, prev, op); GateLeaves(env, prev,
                                                                   Rewritten(env, prev, plan.rec, plan.powers), op)
  {
    var items := prev.anchor.items;
    var proofs := Backed(items, op.evidence, env.receipts).value;
    BackedOneByOne(env, items, op.evidence, 0);
    forall k | 0 <= k < |items| ensures BackedProof(env, op.evidence, items[k], proofs[k]) {
      BackedOneByOne(env, items, op.evidence, k);
    }
  }

  lemma UpsertEffect(env: Env, prev: Record, op: Op)
    requires op.UpsertGoal?
    ensures UpsertLeaves(env, prev, Rewritten(env, prev, op.rec, Routine.(clearAsks := op.clearAsks)), op)
  {
  }

  lemma EnrolEffect(env: Env, op: Op)
    requires op.UpsertGoal?
    ensures EnrolLeaves(env, NewRecord(env, op.rec), op)
  {
    RenderRenders(op.rec.anchor.items);
  }

  lemma RewriteEffect(rules: Rules, env: Env, records: seq<Record>, prev: Record, op: Op)
    requires SingleWrite(op) && !op.UpsertGoal? && prev.ref == op.ref && ArgumentsOk(rules, op)
    requires PlanFor(rules, env, records, prev, op).Write?
    ensures var plan := PlanFor(rules, env, records, prev, op); Leaves(env, prev,
                                                                       Rewritten(env, prev, plan.rec, plan.powers), op)
  {
    if op.Hold? { HoldEffect(rules, env, records, prev, op); }
    else if op.Resume? { ResumeEffect(rules, env, records, prev, op); }
    else if op.UpdateNow? { UpdateEffect(rules, env, records, prev, op); }
    else if op.AddAsk? { AskEffect(rules, env, records, prev, op); }
    else if op.ResolveAsk? { ResolveEffect(rules, env, prev, op); }
    else if op.ReviewRestart? { RestartEffect(rules, env, records, prev, op); }
    else if op.Redirect? { RedirectEffect(rules, env, prev, op); }
    else { GateEffect(rules, env, prev, op); }
  }

  // ---------------------------------------------------------------- the effect on the store

  lemma WriteEffect(rules: Rules, env: Env, records: seq<Record>, rec: Record, p: Powers, ref: string)
    requires Refusal(rules, env, records, rec, p).None?
    ensures Find(Upsert(rules, env, records, rec, p).records, ref) ==
            if ref == rec.ref then Some(Stored(env, records, rec, p)) else Find(records, ref)
  {
    FindAfterPut(records, Stored(env, records, rec, p), ref);
  }

  lemma SaysWhom(rules: Rules, env: Env, records: seq<Record>, op: Op)
    requires SingleWrite(op)
    ensures var plan := PlanOf(rules, env, records, op);
            && (plan.Refuse? || plan.Nothing? || plan.Write?)
            && (plan.Write? ==> plan.rec.ref == Lane(op) && ArgumentsOk(rules, op))
            && (!plan.Refuse? && !op.UpsertGoal? ==>
                Find(records, op.ref).Some? && plan == PlanFor(rules, env, records, Find(records, op.ref).value, op))
            && (plan.Write? && op.UpsertGoal? ==> plan == Write(op.rec, Routine.(clearAsks := op.clearAsks)))
            && (plan.Nothing? ==>
                op.AddAsk? && Find(records, op.ref).Some? && op.ask in Find(records, op.ref).value.tactics.asks)
  {
  }

  lemma StoredEffect(rules: Rules, env: Env, records: seq<Record>, op: Op, rec: Record, p: Powers)
    requires SingleWrite(op) && PlanOf(rules, env, records, op) == Write(rec, p)
    ensures if Find(records, Lane(op)).Some?
            then Leaves(env, Find(records, Lane(op)).value, Stored(env, records, rec, p), op)
            else op.UpsertGoal? && EnrolLeaves(env, Stored(env, records, rec, p), op)
  {
    SaysWhom(rules, env, records, op);
    var prev := Find(records, Lane(op));
    if op.UpsertGoal? {
      if prev.Some? { UpsertEffect(env, prev.value, op); } else { EnrolEffect(env, op); }
    } else {
      RewriteEffect(rules, env, records, prev.value, op);
    }
  }

  /** An accepted mutator writes its own lane as its kind says and touches no other. */
  lemma EveryMutatorLeaves(rules: Rules, env: Env, records: seq<Record>, op: Op)
    requires SingleWrite(op) && Apply(rules, env, records, op).refused.None?
    ensures Effect(env, records, Apply(rules, env, records, op).records, op)
  {
    SaysWhom(rules, env, records, op);
    var plan := PlanOf(rules, env, records, op);
    if plan.Write? {
      forall ref ensures Find(Upsert(rules, env, records, plan.rec, plan.powers).records, ref) ==
                         if ref == plan.rec.ref then Some(Stored(env, records, plan.rec, plan.powers))
                         else Find(records, ref)
      {
        WriteEffect(rules, env, records, plan.rec, plan.powers, ref);
      }
      StoredEffect(rules, env, records, op, plan.rec, plan.powers);
    }
  }

  /** A refused one changes nothing. */
  lemma RefusedLeavesAll(rules: Rules, env: Env, records: seq<Record>, op: Op)
    requires SingleWrite(op) && Apply(rules, env, records, op).refused.Some?
    ensures Apply(rules, env, records, op).records == records
  {
    SaysWhom(rules, env, records, op);
  }

  // ---------------------------------------------------------------- when a mutator is accepted

  /** The lane is stored, under a name without surrounding whitespace. */
  predicate Writable(records: seq<Record>, ref: string) {
    var r := Find(records, ref);
    r.Some? && !Padded(r.value.anchor.lane)
  }

  predicate Vouched(registry: map<string, string>, items: seq<Item>) {
    forall i :: i in items ==> i.validator in registry && (i.pin == "" || i.pin == registry[i.validator])
  }

  /** Some strategic field changes, beyond surrounding whitespace. */
  predicate Changes(r: Record, d: Direction, source: string) {
    || Strip(d.goal) != Strip(r.direction.goal) || Strip(d.doneWhen) != Strip(r.direction.doneWhen)
    || Strip(d.intent) != Strip(r.direction.intent) || Strip(d.scope) != Strip(r.direction.scope)
    || d.policy != r.direction.policy || Strip(source) != Strip(r.source)
  }

  predicate Wording(d: Direction, source: string) {
    !Blank(d.goal) && WordCount(d.goal) >= 6 && !Blank(d.doneWhen) && !Blank(source)
  }

  predicate RedirectOk(r: Record, op: Op)
    requires op.Redirect?
  {
    var d, c := r.direction, op.change;
    var next := Direction(Or(c.goal, d.goal), Or(c.doneWhen, d.doneWhen), Or(c.intent, d.intent), Or(c.scope, d.scope),
                          Or(c.policy, d.policy));
    var source := Or(op.source, r.source);
    && Strip(next.doneWhen) == Strip(d.doneWhen) && Changes(r, next, source) && Wording(next, source)
  }

  predicate SelectorOk(asks: seq<string>, s: Selector) {
    (s.ByText? ==> s.ask in asks) && (s.ByIndex? ==> 0 <= s.index < |asks|)
  }

  predicate CitedOk(rules: Rules, op: Op)
    requires op.ResolveAsk?
  {
    op.byMonitor ==>
      && op.basis.Some? && !Blank(op.basis.value) && op.citation.Some? && !Blank(op.citation.value) &&
        !Blank(op.authority)
      && rules.plain(op.basis.value) && rules.plain(op.authority)
  }

  predicate Opens(rules: Rules, env: Env, r: Record, op: Op)
    requires op.GatePassed?
  {
    && Vouched(env.registry, r.anchor.items) && AllProven(rules.concrete, r.anchor.items, op.evidence)
    && forall i :: i in r.anchor.items ==> BackedConcrete(rules.concrete, i, op.evidence, env.receipts)
  }

  /** The same items; a pin may be left out, but not given differently. */
  predicate SameItems(given: seq<Item>, frozen: seq<Item>) {
    |given| == |frozen| && forall k :: 0 <= k < |frozen| ==>
      && given[k].id == frozen[k].id && given[k].text == frozen[k].text && given[k].validator == frozen[k].validator
      && given[k].receipt == frozen[k].receipt && given[k].pin in {"", frozen[k].pin}
  }

  /** An upsert of a stored lane repeats its direction, its frozen anchor where it names one, and its proofs, and does
      not make it done. */
  predicate UpdateOk(r: Record, rec: Record) {
    && !Changes(r, rec.direction, rec.source)
    && (Blank(rec.anchor.lane) || Strip(rec.anchor.lane) == r.anchor.lane)
    && (rec.anchor.doneWhen == "" || rec.anchor.doneWhen == r.anchor.doneWhen)
    && (rec.anchor.at == "" || rec.anchor.at == r.anchor.at)
    && rec.anchor.interview == r.anchor.interview && SameItems(rec.anchor.items, r.anchor.items)
    && rec.proofs == r.proofs
    && ((rec.status == DonePendingClose || rec.status == DonePendingVerification) ==> rec.status == r.status)
  }

  /** A first upsert meets the enrolment contract, is vouched for by the registry, names its own lane or none, finds the
      lane free, and is not done. */
  predicate EnrolOk(rules: Rules, env: Env, records: seq<Record>, rec: Record) {
    && Enrolled(rules, rec.anchor, rec.direction.doneWhen) && Vouched(env.registry, rec.anchor.items)
    && (Blank(rec.anchor.lane) || Strip(rec.anchor.lane) == LaneOf(rec.ref))
    && (forall r :: r in records && r.ref != rec.ref ==> r.anchor.lane != LaneOf(rec.ref))
    && rec.status != DonePendingClose && rec.status != DonePendingVerification
  }

  predicate Accepts(rules: Rules, env: Env, records: seq<Record>, op: Op) {
    match op
    case UpsertGoal(rec, _) =>
      Wording(rec.direction, rec.source)
      && if Find(records, rec.ref).Some? then UpdateOk(Find(records, rec.ref).value, rec) else EnrolOk(rules, env,
          records, rec)
    case Redirect(ref, reason, _, _) =>
      !Blank(reason) && Writable(records, ref) && RedirectOk(Find(records, ref).value, op)
    case ReviewRestart(ref, _, _, _) => Writable(records, ref)
    case UpdateNow(ref, _, status, _) =>
      status != Some(DonePendingClose) && status != Some(DonePendingVerification) && Writable(records, ref)
    case GatePassed(ref, _, _, _) => Writable(records, ref) && Opens(rules, env, Find(records, ref).value, op)
    case Hold(ref, reason, resumeAt) =>
      !Blank(reason) && (resumeAt == "" || rules.isTime(resumeAt)) && Writable(records, ref)
    case Resume(ref) => Writable(records, ref) && Find(records, ref).value.status == Held
    case AddAsk(ref, ask) =>
      Find(records, ref).Some? && (ask in Find(records, ref).value.tactics.asks || Writable(records, ref))
    case ResolveAsk(ref, selector, _, _, _, _) =>
      Writable(records, ref) && SelectorOk(Find(records, ref).value.tactics.asks, selector) && CitedOk(rules, op)
    case _ => false
  }

  lemma ItemsMatchThemselves(items: seq<Item>)
    ensures ItemsMatch(items, items)
  {
  }

  /** A rewrite that keeps the anchor is refused only for its padded lane name, a strategic change without the power,
      other proofs without the power, or a done status without the power. */
  lemma SameAnchorRefusal(rules: Rules, env: Env, records: seq<Record>, prev: Record, rec: Record, p: Powers)
    requires Sound(rules, records) && Find(records, rec.ref) == Some(prev) && rec.anchor == prev.anchor
    ensures Refusal(rules, env, records, rec, p).None? <==>
              && !Padded(prev.anchor.lane) && (SameStrategy(prev, rec) || p.strategic) &&
                (rec.proofs == prev.proofs || p.proofs)
              && (IsDone(rec.status) && rec.status != prev.status ==> p.done)
  {
    NoConflictWithin(records, prev);
    assert Good(rules, prev);
    SameAnchorRewrite(rules, prev, rec, p);
  }

  lemma SameAnchorRewrite(rules: Rules, prev: Record, rec: Record, p: Powers)
    requires Frozen(rules, prev) && rec.anchor == prev.anchor
    ensures RewriteRefusal(rules, prev, rec, p).None? <==>
              !Padded(prev.anchor.lane) && (SameStrategy(prev, rec) || p.strategic) &&
                (rec.proofs == prev.proofs || p.proofs)
  {
    ItemsMatchThemselves(prev.anchor.items);
  }

  /** The mutators that keep direction and proofs: accepted exactly when they plan a write to a writable lane. */
  lemma TacticalAccepted(rules: Rules, env: Env, records: seq<Record>, prev: Record, op: Op)
    requires Tactical(op) && !op.GatePassed? && ArgumentsOk(rules, op)
    requires Sound(rules, records) && Find(records, op.ref) == Some(prev)
    requires PlanFor(rules, env, records, prev, op).Write?
    ensures Apply(rules, env, records, op).refused.None? <==> !Padded(prev.anchor.lane)
  {
    var plan := PlanFor(rules, env, records, prev, op);
    assert Good(rules, prev);
    TacticalKeepsRest(rules, env, records, prev, op);
    SameAnchorRefusal(rules, env, records, prev, plan.rec, plan.powers);
    assert PlanOf(rules, env, records, op) == plan;
  }

  lemma TacticalKeepsRest(rules: Rules, env: Env, records: seq<Record>, prev: Record, op: Op)
    requires Tactical(op) && !op.GatePassed? && ArgumentsOk(rules, op) && prev.ref == op.ref
    requires PlanFor(rules, env, records, prev, op).Write?
    ensures var rec := PlanFor(rules, env, records, prev, op).rec;
            && rec.ref == prev.ref && rec.anchor == prev.anchor && rec.direction == prev.direction &&
              rec.source == prev.source
            && rec.proofs == prev.proofs && (IsDone(rec.status) ==> rec.status == prev.status)
  {
  }

  lemma GateAccepted(rules: Rules, env: Env, records: seq<Record>, prev: Record, op: Op)
    requires Sound(rules, records) && op.GatePassed? && Find(records, op.ref) == Some(prev)
    ensures Apply(rules, env, records, op).refused.None? <==> !Padded(prev.anchor.lane) && Opens(rules, env, prev, op)
  {
    assert Good(rules, prev);
    GateOpensIff(rules.concrete, prev.anchor.items, op.evidence, env.receipts);
    var plan := PlanGate(rules, env, prev, op);
    assert Registered(env.registry, prev.anchor.items) == Vouched(env.registry, prev.anchor.items);
    assert plan.Write? <==> Opens(rules, env, prev, op);
    assert PlanOf(rules, env, records, op) == plan;
    if plan.Write? { SameAnchorRefusal(rules, env, records, prev, plan.rec, plan.powers); }
  }

  /** Freezing the conditions keeps the contract through a redirect. */
  lemma StillEnrolled(rules: Rules, a: Anchor, doneWhen: string, next: string)
    requires Enrolled(rules, a, doneWhen) && Strip(next) == Strip(doneWhen)
    ensures Enrolled(rules, a, next)
  {
  }

  lemma RedirectWrites(rules: Rules, env: Env, prev: Record, op: Op)
    requires op.Redirect? && Frozen(rules, prev)
    ensures PlanRedirect(rules, env, prev, op).Write? <==> RedirectOk(prev, op)
    ensures PlanRedirect(rules, env, prev, op).Write? || PlanRedirect(rules, env, prev, op).Refuse?
  {
    var next := Amend(prev.direction, op.change);
    if Strip(next.doneWhen) == Strip(prev.direction.doneWhen) {
      StillEnrolled(rules, prev.anchor, prev.direction.doneWhen, next.doneWhen);
    }
  }

  lemma RedirectShape(rules: Rules, env: Env, prev: Record, op: Op)
    requires op.Redirect? && PlanRedirect(rules, env, prev, op).Write?
    ensures var plan := PlanRedirect(rules, env, prev, op);
            && plan.rec.ref == prev.ref && plan.rec.anchor == prev.anchor && plan.rec.proofs == prev.proofs
            && plan.powers == Routine.(strategic := true, metadata := true, legacy := true)
            && (IsDone(plan.rec.status) ==> plan.rec.status == prev.status)
  {
  }

  lemma RedirectAccepted(rules: Rules, env: Env, records: seq<Record>, prev: Record, op: Op)
    requires Sound(rules, records) && op.Redirect? && Find(records, op.ref) == Some(prev) && !Blank(op.reason)
    ensures Apply(rules, env, records, op).refused.None? <==> !Padded(prev.anchor.lane) && RedirectOk(prev, op)
  {
    assert Good(rules, prev);
    RedirectWrites(rules, env, prev, op);
    var plan := PlanRedirect(rules, env, prev, op);
    assert PlanOf(rules, env, records, op) == plan;
    if plan.Write? {
      RedirectShape(rules, env, prev, op);
      SameAnchorRefusal(rules, env, records, prev, plan.rec, plan.powers);
    }
  }

  lemma UpdateAccepted(rules: Rules, env: Env, records: seq<Record>, prev: Record, op: Op)
    requires Sound(rules, records) && op.UpsertGoal? && Find(records, op.rec.ref) == Some(prev) && Worded(op.rec)
    ensures Apply(rules, env, records, op).refused.None? <==> UpdateOk(prev, op.rec)
  {
    assert Good(rules, prev);
    NoConflictWithin(records, prev);
    assert SameStrategy(prev, op.rec) == !Changes(prev, op.rec.direction, op.rec.source);
    UpdateRewrites(rules, prev, op.rec, Routine.(clearAsks := op.clearAsks));
    assert PlanOf(rules, env, records, op) == Write(op.rec, Routine.(clearAsks := op.clearAsks));
  }

  lemma UpdateRewrites(rules: Rules, prev: Record, rec: Record, p: Powers)
    requires Frozen(rules, prev) && p == Routine.(clearAsks := p.clearAsks)
    ensures RewriteRefusal(rules, prev, rec, p).None? && !(IsDone(rec.status) && rec.status != prev.status) <==>
              UpdateOk(prev, rec)
  {
    assert SameStrategy(prev, rec) == !Changes(prev, rec.direction, rec.source);
  }

  lemma EnrolAccepted(rules: Rules, env: Env, records: seq<Record>, op: Op)
    requires op.UpsertGoal? && Find(records, op.rec.ref).None? && Worded(op.rec)
    ensures Apply(rules, env, records, op).refused.None? <==> EnrolOk(rules, env, records, op.rec)
  {
    var rec := op.rec;
    assert Registered(env.registry, rec.anchor.items) == Vouched(env.registry, rec.anchor.items);
    assert PlanOf(rules, env, records, op) == Write(rec, Routine.(clearAsks := op.clearAsks));
    assert LaneConflict(records, rec.ref, LaneOf(rec.ref)) <==>
              exists r :: r in records && r.ref != rec.ref && r.anchor.lane == LaneOf(rec.ref);
  }

  lemma TacticalPlans(rules: Rules, env: Env, records: seq<Record>, prev: Record, op: Op)
    requires Tactical(op) && !op.GatePassed? && ArgumentsOk(rules, op) && prev.ref == op.ref
    ensures var plan := PlanFor(rules, env, records, prev, op);
            && (op.Resume? ==> (plan.Write? <==> prev.status == Held))
            && (op.ResolveAsk? ==> (plan.Write? <==> SelectorOk(prev.tactics.asks, op.selector) && CitedOk(rules, op)))
            && (op.AddAsk? ==>
                (plan.Write? <==> op.ask !in prev.tactics.asks) && (plan.Nothing? <==> op.ask in prev.tactics.asks))
            && (!op.Resume? && !op.ResolveAsk? && !op.AddAsk? ==> plan.Write?)
            && (plan.Write? || plan.Refuse? || (op.AddAsk? && plan.Nothing?))
  {
  }

  lemma ArgumentsMean(rules: Rules, op: Op)
    requires SingleWrite(op)
    ensures ArgumentsOk(rules, op) <==>
            match op
            case UpsertGoal(rec, _) => Wording(rec.direction, rec.source)
            case Redirect(_, reason, _, _) => !Blank(reason)
            case UpdateNow(_, _, status, _) =>
              status != Some(DonePendingClose) && status != Some(DonePendingVerification)
            case Hold(_, reason, resumeAt) => !Blank(reason) && (resumeAt == "" || rules.isTime(resumeAt))
            case _ => true
  {
  }

  lemma RefusedOtherwise(rules: Rules, env: Env, records: seq<Record>, op: Op)
    requires SingleWrite(op) && (!ArgumentsOk(rules, op) || (!op.UpsertGoal? && Find(records, op.ref).None?))
    ensures Apply(rules, env, records, op).refused.Some?
  {
  }

  lemma TacticalIff(rules: Rules, env: Env, records: seq<Record>, prev: Record, op: Op)
    requires Tactical(op) && !op.GatePassed? && ArgumentsOk(rules, op)
    requires Sound(rules, records) && Find(records, op.ref) == Some(prev)
    ensures Apply(rules, env, records, op).refused.None? <==> Accepts(rules, env, records, op)
  {
    var plan := PlanFor(rules, env, records, prev, op);
    TacticalPlans(rules, env, records, prev, op);
    ArgumentsMean(rules, op);
    assert PlanOf(rules, env, records, op) == plan;
    if plan.Write? { TacticalAccepted(rules, env, records, prev, op); }
  }

  /** Over every run, a mutator is accepted exactly when its own conditions hold of the store. */
  lemma AcceptedIff(rules: Rules, env: Env, calls: seq<Call>, op: Op)
    requires SingleWrite(op)
    ensures Apply(rules, env, Exec(rules, calls), op).refused.None? <==> Accepts(rules, env, Exec(rules, calls), op)
  {
    var records := Exec(rules, calls);
    SoundAlways(rules, calls);
    ArgumentsMean(rules, op);
    var prev := Find(records, Lane(op));
    if !ArgumentsOk(rules, op) || (!op.UpsertGoal? && prev.None?) { RefusedOtherwise(rules, env, records, op); }
    else if op.UpsertGoal? {
      if prev.Some? { UpdateAccepted(rules, env, records, prev.value, op); }
      else { EnrolAccepted(rules, env, records, op); }
    }
    else if op.GatePassed? { GateAccepted(rules, env, records, prev.value, op); }
    else if op.Redirect? { RedirectAccepted(rules, env, records, prev.value, op); }
    else { TacticalIff(rules, env, records, prev.value, op); }
  }

  // ---------------------------------------------------------------- close and transfer

  /** A close is accepted for a reason, as a discard, or past the completion gate with the given or the stored proofs.
      */
  predicate CloseOk(rules: Rules, env: Env, r: Record, op: Op)
    requires op.Close?
  {
    var claimed := if op.evidence == [] then r.proofs else op.evidence;
    if op.administrative then !Blank(op.reason)
    else
      && !op.listed && r.status == DonePendingClose && Vouched(env.registry, r.anchor.items)
      && AllProven(rules.concrete, r.anchor.items, claimed)
      && forall i :: i in r.anchor.items ==> BackedConcrete(rules.concrete, i, claimed, env.receipts)
  }

  lemma ClosePlans(rules: Rules, env: Env, prev: Record, op: Op)
    requires op.Close? && Good(rules, prev)
    ensures PlanClose(rules, env, prev, op) == Remove(op.ref) <==> CloseOk(rules, env, prev, op)
    ensures PlanClose(rules, env, prev, op) == Remove(op.ref) || PlanClose(rules, env, prev, op).Refuse?
  {
    GateOpensIff(rules.concrete, prev.anchor.items, if op.evidence == [] then prev.proofs else op.evidence,
                 env.receipts);
    assert Registered(env.registry, prev.anchor.items) == Vouched(env.registry, prev.anchor.items);
  }

  /** Over every run: exactly such a close is accepted; it removes the lane and touches no other, and a refused one
      changes nothing. */
  lemma CloseIff(rules: Rules, env: Env, calls: seq<Call>, op: Op)
    requires op.Close?
    ensures var records := Exec(rules, calls);
            var r, out := Find(records, op.ref), Apply(rules, env, records, op);
            && (out.refused.None? <==> r.Some? && CloseOk(rules, env, r.value, op))
            && forall ref :: Find(out.records, ref) == if out.refused.None? &&
              ref == op.ref then None else Find(records, ref)
  {
    var records := Exec(rules, calls);
    SoundAlways(rules, calls);
    var r, out := Find(records, op.ref), Apply(rules, env, records, op);
    if r.Some? {
      assert Good(rules, r.value);
      ClosePlans(rules, env, r.value, op);
      assert PlanOf(rules, env, records, op) == PlanClose(rules, env, r.value, op);
    }
    forall ref ensures Find(Without(records, op.ref), ref) == if ref == op.ref then None else Find(records, ref) {
      FindWithout(records, op.ref, ref);
    }
  }

  /** A session reference names its lane in the second place, and a bare name is the lane itself. */
  lemma LaneNames(host: string, lane: string, pane: string)
    requires ':' !in host && ':' !in lane && ':' !in pane
    ensures LaneOf(lane) == lane
    ensures lane != "" ==> LaneOf(host + [':'] + lane) == lane && LaneOf(host + [':'] + (lane + [':'] + pane)) == lane
  {
    SplitNone(lane, ':');
    SplitNone(pane, ':');
    SplitCons(host, lane, ':');
    SplitCons(lane, pane, ':');
    SplitCons(host, lane + [':'] + pane, ':');
  }

  lemma NonEmptyCons(head: string, rest: seq<string>)
    requires head != ""
    ensures NonEmpty([head] + rest) == [head] + NonEmpty(rest)
  {
    assert ([head] + rest)[1..] == rest;
  }

  lemma JoinCons(head: string, rest: seq<string>)
    requires rest != []
    ensures Join([head] + rest, ":") == head + ":" + Join(rest, ":")
  {
    assert ([head] + rest)[1..] == rest;
  }

  lemma JoinThree(a: string, b: string, c: string)
    requires a != "" && b != "" && c != ""
    ensures Join(NonEmpty([a, b, c]), ":") == a + ":" + (b + ":" + c)
  {
    NonEmptyCons(c, []);
    NonEmptyCons(b, [c]);
    NonEmptyCons(a, [b, c]);
    JoinCons(b, [c]);
    JoinCons(a, [b, c]);
    assert [c] + [] == [c] && [b] + [c] == [b, c] && [a] + [b, c] == [a, b, c] && NonEmpty([]) == [];
  }

  /** The successor of a lane keeps its host and pane and has the lane's name with a suffix, numbered from the second
      on. */
  lemma SuccessorNames(host: string, lane: string, pane: string, k: nat)
    requires ':' !in host && ':' !in lane && ':' !in pane && host != "" && lane != "" && pane != "" && 1 <= k < 100
    ensures Candidate(host + [':'] + (lane + [':'] + pane), k) ==
            host + ":" + (lane + (if k == 1 then "-xfer" else "-xfer" + Number(k)) + ":" + pane)
    ensures k < 10 ==> Number(k) == ["0123456789"[k]]
    ensures k >= 10 ==> Number(k) == ["0123456789"[k / 10], "0123456789"[k % 10]]
  {
    LaneNames(host, lane, pane);
    SplitNone(pane, ':');
    SplitCons(lane, pane, ':');
    SplitCons(host, lane + [':'] + pane, ':');
    JoinThree(host, lane + (if k == 1 then "-xfer" else "-xfer" + Number(k)), pane);
  }

  /** The first of the ninety-nine names that no lane has. */
  predicate NextFree(ref: string, taken: set<string>, successor: string) {
    exists k :: 1 <= k < 100 && successor == Candidate(ref, k) && successor !in taken && forall j :: 1 <= j < k ==>
        Candidate(ref, j) in taken
  }

  predicate TakenUpTo(ref: string, taken: set<string>, from: nat, k: nat)
    requires 1 <= from && k <= 100
  {
    forall j :: from <= j < k ==> Candidate(ref, j) in taken
  }

  lemma TakenFirst(ref: string, taken: set<string>, from: nat, k: nat)
    requires 1 <= from < k <= 100 && Candidate(ref, from) in taken && TakenUpTo(ref, taken, from + 1, k)
    ensures TakenUpTo(ref, taken, from, k)
  {
  }

  lemma {:induction false} FirstFree(ref: string, taken: set<string>, attempt: nat) returns (k: nat)
    requires 1 <= attempt <= 100
    ensures attempt <= k <= 100 && TakenUpTo(ref, taken, attempt, k)
    ensures if k == 100 then SuccessorRef(ref, taken, attempt).None?
            else Candidate(ref, k) !in taken && SuccessorRef(ref, taken, attempt) == Some(Candidate(ref, k))
    decreases 100 - attempt
  {
    k := attempt;
    if attempt < 100 && Candidate(ref, attempt) in taken {
      k := FirstFree(ref, taken, attempt + 1);
      TakenFirst(ref, taken, attempt, k);
    }
  }

  lemma SuccessorIsNextFree(ref: string, taken: set<string>)
    ensures var successor := SuccessorRef(ref, taken, 1);
            && (successor.Some? ==> NextFree(ref, taken, successor.value))
            && (successor.None? <==> forall j :: 1 <= j < 100 ==> Candidate(ref, j) in taken)
  {
    var k := FirstFree(ref, taken, 1);
  }

  /** The original on hold for its successor. */
  predicate TransferHolds(env: Env, prev: Record, next: Record, op: Op, successor: string)
    requires op.Transfer?
  {
    next == prev.(status := Held, tactics := prev.tactics.(holdReason := op.reason, resumeAt := op.resumeAt),
                  links := prev.links.(transferredTo := successor), updated := env.now)
  }

  /** The successor: the same direction and policy, the digest behind the source, the same frozen interview and items
      under its own lane name, version one, no history, idle, and linked back. */
  ghost predicate Succeeds(env: Env, prev: Record, next: Record, op: Op, successor: string)
    requires op.Transfer?
  {
    var items := next.anchor.items;
    && next == Record(successor, prev.direction, prev.source + "; digest:" + Strip(op.digest), Idle, next.anchor, 1,
                      [], next.tactics,
                      Links(op.ref, ""), [], env.now, env.now)
    && next.tactics == Tactics("scaffolded by transfer to " + op.backend + ": " + op.reason, "", "", [], [], "", "")
    && next.anchor.lane == LaneOf(successor) && Renders(next.anchor.doneWhen, prev.anchor.items) &&
      next.anchor.at == env.now
    && next.anchor.interview == prev.anchor.interview && |items| == |prev.anchor.items|
    && forall k :: 0 <= k < |items| ==>
         PinnedAs(env, prev.anchor.items[k], items[k])
  }

  lemma HoldWritten(env: Env, records: seq<Record>, prev: Record, op: Op, successor: string)
    requires op.Transfer? && Find(records, op.ref) == Some(prev) && successor != "" && !Blank(op.reason)
    ensures var first := prev.(status := Held,
                               tactics := prev.tactics.(holdReason := op.reason, resumeAt := op.resumeAt),
                               links := prev.links.(transferredTo := successor));
            TransferHolds(env, prev, Stored(env, records, first, Routine), op, successor)
  {
    assert op.reason != "" by { assert Blank(""); }
  }

  lemma SuccessorWritten(env: Env, records: seq<Record>, prev: Record, op: Op, successor: string)
    requires op.Transfer? && Find(records, successor).None?
    ensures Succeeds(env, prev, Stored(env, records, Successor(prev, successor, op), Routine), op, successor)
  {
    RenderRenders(prev.anchor.items);
  }

  /** What a planned transfer leaves of each lane, whether it completes, strands the original, or is refused outright.
      */
  lemma TransferEffect(rules: Rules, env: Env, records: seq<Record>, op: Op)
    requires op.Transfer? && PlanOf(rules, env, records, op).WriteBoth?
    ensures var prev, plan := Find(records, op.ref), PlanOf(rules, env, records, op);
            var successor, out := plan.second.ref, Apply(rules, env, records, op);
            && prev.Some? && NextFree(op.ref, Refs(records), successor) && successor != op.ref
            && (forall ref :: ref != op.ref && ref != successor ==> Find(out.records, ref) == Find(records, ref))
            && (Find(out.records, op.ref) == prev
                || (Find(out.records, op.ref).Some? &&
                    TransferHolds(env, prev.value, Find(out.records, op.ref).value, op, successor)))
            && (out.refused.None? ==> Find(out.records, successor).Some? && Find(out.records, op.ref).Some?
                                      && TransferHolds(env, prev.value, Find(out.records, op.ref).value, op, successor)
                                      && Succeeds(env, prev.value, Find(out.records, successor).value, op, successor))
  {
    TransferPlan(rules, env, records, op);
    var prev, plan := Find(records, op.ref).value, PlanOf(rules, env, records, op);
    var successor := plan.second.ref;
    SuccessorIsNextFree(op.ref, Refs(records));
    SuccessorNamed(op.ref, Refs(records), 1);
    assert prev.ref in Refs(records);
    FreeIsAbsent(records, successor);
    HoldWritten(env, records, prev, op, successor);
    TransferWrites(rules, env, records, prev, op, plan.first, successor);
  }

  lemma FreeIsAbsent(records: seq<Record>, ref: string)
    requires ref !in Refs(records)
    ensures Find(records, ref).None?
  {
  }

  lemma TransferWrites(rules: Rules, env: Env, records: seq<Record>, prev: Record, op: Op, first: Record,
                       successor: string)
    requires op.Transfer? && Find(records, op.ref) == Some(prev) && first.ref == op.ref
    requires Find(records, successor).None? && successor != op.ref
    requires TransferHolds(env, prev, Stored(env, records, first, Routine), op, successor)
    ensures var out := Carry(rules, env, records, WriteBoth(first, Successor(prev, successor, op)));
            && (forall ref :: ref != op.ref && ref != successor ==> Find(out.records, ref) == Find(records, ref))
            && (Find(out.records, op.ref) == Some(prev)
                || (Find(out.records, op.ref).Some? &&
                    TransferHolds(env, prev, Find(out.records, op.ref).value, op, successor)))
            && (out.refused.None? ==> Find(out.records, successor).Some? && Find(out.records, op.ref).Some?
                                      && TransferHolds(env, prev, Find(out.records, op.ref).value, op, successor)
                                      && Succeeds(env, prev, Find(out.records, successor).value, op, successor))
  {
    var one := Upsert(rules, env, records, first, Routine);
    if one.refused.None? {
      forall ref ensures Find(one.records, ref) == if ref ==
        op.ref then Some(Stored(env, records, first, Routine)) else Find(records, ref) {
        WriteEffect(rules, env, records, first, Routine, ref);
      }
      var second := Successor(prev, successor, op);
      if Refusal(rules, env, one.records, second, Routine).None? {
        SuccessorWritten(env, one.records, prev, op, successor);
        forall ref ensures Find(Upsert(rules, env, one.records, second, Routine).records, ref) ==
                           if ref == successor then Some(Stored(env, one.records, second, Routine))
                           else Find(one.records, ref)
        {
          WriteEffect(rules, env, one.records, second, Routine, ref);
        }
      }
    }
  }

  /** Over every run, a transfer gets past its own checks exactly when its arguments are in order, the lane is stored
      and has not moved before, a name is free, and the successor is worded. */
  lemma TransferPlannedIff(rules: Rules, env: Env, calls: seq<Call>, op: Op)
    requires op.Transfer?
    ensures var records := Exec(rules, calls);
            PlanOf(rules, env, records, op).WriteBoth? <==>
              && (op.backend == "claude" || op.backend == "codex") && !Blank(op.digest) && !Blank(op.reason)
              && (op.resumeAt == "" || rules.isTime(op.resumeAt))
              && Find(records, op.ref).Some? && Find(records, op.ref).value.links.transferredTo == ""
              && (exists k :: 1 <= k < 100 && Candidate(op.ref, k) !in Refs(records))
              && var r := Find(records, op.ref).value; Wording(r.direction, r.source + "; digest:" + Strip(op.digest))
  {
    var records := Exec(rules, calls);
    SoundAlways(rules, calls);
    SuccessorIsNextFree(op.ref, Refs(records));
    var prev := Find(records, op.ref);
    if prev.Some? {
      assert Good(rules, prev.value);
      TransferPlans(rules, env, records, prev.value, op);
    }
    assert ArgumentsOk(rules, op) && prev.Some? ==>
              PlanOf(rules, env, records, op) == PlanFor(rules, env, records, prev.value, op);
  }

  lemma TransferPlans(rules: Rules, env: Env, records: seq<Record>, prev: Record, op: Op)
    requires op.Transfer? && Frozen(rules, prev) && prev.ref == op.ref
    ensures PlanFor(rules, env, records, prev, op).WriteBoth? <==>
              prev.links.transferredTo == "" && SuccessorRef(op.ref, Refs(records), 1).Some?
              && Wording(prev.direction, prev.source + "; digest:" + Strip(op.digest))
  {
    var ref := SuccessorRef(op.ref, Refs(records), 1);
    if ref.Some? { SuccessorContract(rules, prev, ref.value, op); }
  }

  lemma SuccessorContract(rules: Rules, prev: Record, ref: string, op: Op)
    requires op.Transfer? && Frozen(rules, prev)
    ensures var next := Successor(prev, ref, op);
            && Enrolled(rules, next.anchor, next.direction.doneWhen)
            && (Worded(next) <==> Wording(prev.direction, prev.source + "; digest:" + Strip(op.digest)))
  {
  }
}
