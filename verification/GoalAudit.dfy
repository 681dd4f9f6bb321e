/** The append-only parts of a goal record: asks, their retirements, and the transfer links. */
module GoalAudit {
  import opened Basics
  import opened Text
  import opened Goals
  import opened GoalRuns

  predicate Retired(retired: seq<Retirement>, ask: string) { exists x :: x in retired && x.ask == ask }

  /** Each open ask is still open or was retired. */
  predicate AsksAccounted(prev: Tactics, next: Tactics) {
    forall ask :: ask in prev.asks ==> ask in next.asks || Retired(next.retired, ask)
  }

  predicate LinkKept(prev: string, next: string) { prev != "" ==> next == prev }

  predicate Keeps(prev: Record, next: Record) {
    && AsksAccounted(prev.tactics, next.tactics)
    && prev.tactics.retired <= next.tactics.retired
    && LinkKept(prev.links.successorOf, next.links.successorOf)
    && LinkKept(prev.links.transferredTo, next.links.transferredTo)
  }

  /** An upsert that says nothing about asks, retirements or links. */
  predicate Silent(op: Op) {
    op.UpsertGoal? ==>
        !op.clearAsks && op.rec.tactics.asks == [] && op.rec.tactics.retired == [] && op.rec.links == Links("", "")
  }

  /** What a plan writes over a stored record keeps that record's audit. */
  predicate PlanKeeps(env: Env, records: seq<Record>, plan: Plan) {
    match plan
    case Write(rec, p) =>
      Find(records, rec.ref).Some? ==>
          Keeps(Find(records, rec.ref).value, Rewritten(env, Find(records, rec.ref).value, rec, p))
    case WriteBoth(first, second) =>
      && Find(records, first.ref).Some? &&
        Keeps(Find(records, first.ref).value, Rewritten(env, Find(records, first.ref).value, first, Routine))
      && Find(records, second.ref).None?
    case Remove(_) => false
    case _ => true
  }

  /** A candidate copied from the record, with the same asks and retirements or more. */
  lemma CopyKeeps(env: Env, prev: Record, rec: Record, p: Powers)
    requires rec.links == prev.links && prev.tactics.retired <= rec.tactics.retired
    requires p.clearAsks || rec.tactics.asks != [] || prev.tactics.asks == [] || rec.tactics.asks == prev.tactics.asks
    requires AsksAccounted(prev.tactics, rec.tactics)
    ensures Keeps(prev, Rewritten(env, prev, rec, p))
  {
  }

  lemma RetiredAll(env: Env, op: Op, removed: seq<string>, before: seq<Retirement>, ask: string)
    requires op.ResolveAsk? && ask in removed
    ensures Retired(before + seq(|removed|, k requires 0 <= k < |removed| => Retire(env, op, removed[k])), ask)
  {
    var more := seq(|removed|, k requires 0 <= k < |removed| => Retire(env, op, removed[k]));
    var k :| 0 <= k < |removed| && removed[k] == ask;
    assert more[k] in before + more && more[k].ask == ask;
  }

  function Removed(asks: seq<string>, s: Selector): seq<string>
    requires s.ByIndex? ==> 0 <= s.index < |asks|
  {
    match s case All => asks case ByText(a) => [a] case ByIndex(k) => [asks[k]]
  }

  function Remaining(asks: seq<string>, s: Selector): seq<string>
    requires s.ByIndex? ==> 0 <= s.index < |asks|
  {
    match s case All => [] case ByText(a) => Drop(asks, a) case ByIndex(k) => asks[..k] + asks[k + 1..]
  }

  lemma Partition(asks: seq<string>, s: Selector, ask: string)
    requires (s.ByIndex? ==> 0 <= s.index < |asks|) && ask in asks
    ensures ask in Remaining(asks, s) || ask in Removed(asks, s)
  {
    if s.ByIndex? {
      assert asks == asks[..s.index] + [asks[s.index]] + asks[s.index + 1..];
    }
  }

  lemma ResolveKeeps(rules: Rules, env: Env, prev: Record, op: Op)
    requires op.ResolveAsk? && PlanResolve(rules, env, prev, op).Write?
    ensures var plan := PlanResolve(rules, env, prev, op); Keeps(prev, Rewritten(env, prev, plan.rec, plan.powers))
  {
    var plan, asks := PlanResolve(rules, env, prev, op), prev.tactics.asks;
    forall ask | ask in asks ensures ask in plan.rec.tactics.asks || Retired(plan.rec.tactics.retired, ask) {
      Partition(asks, op.selector, ask);
      if ask in Removed(asks, op.selector) {
        RetiredAll(env, op, Removed(asks, op.selector), prev.tactics.retired, ask);
      }
    }
    CopyKeeps(env, prev, plan.rec, plan.powers);
  }

  lemma SilentKeeps(env: Env, prev: Record, op: Op)
    requires op.UpsertGoal? && Silent(op)
    ensures Keeps(prev, Rewritten(env, prev, op.rec, Routine.(clearAsks := false)))
  {
  }

  lemma RedirectKeeps(rules: Rules, env: Env, prev: Record, op: Op)
    requires op.Redirect? && PlanRedirect(rules, env, prev, op).Write?
    ensures var plan := PlanRedirect(rules, env, prev, op); Keeps(prev, Rewritten(env, prev, plan.rec, plan.powers))
  {
    var plan := PlanRedirect(rules, env, prev, op);
    CopyKeeps(env, prev, plan.rec, plan.powers);
  }

  lemma TransferKeeps(rules: Rules, env: Env, records: seq<Record>, op: Op)
    requires op.Transfer? && PlanOf(rules, env, records, op).WriteBoth?
    ensures PlanKeeps(env, records, PlanOf(rules, env, records, op))
  {
    TransferPlan(rules, env, records, op);
  }

  lemma PlansKeep(rules: Rules, env: Env, records: seq<Record>, op: Op)
    requires Silent(op) && !op.Close?
    ensures PlanKeeps(env, records, PlanOf(rules, env, records, op))
  {
    var plan, prev := PlanOf(rules, env, records, op), Find(records, if op.UpsertGoal? then op.rec.ref else op.ref);
    if op.UpsertGoal? {
      if prev.Some? { SilentKeeps(env, prev.value, op); }
    } else if op.Transfer? {
      if plan.WriteBoth? { TransferKeeps(rules, env, records, op); }
    } else if plan.Write? {
      if op.ResolveAsk? { ResolveKeeps(rules, env, prev.value, op); }
      else if op.Redirect? { RedirectKeeps(rules, env, prev.value, op); }
      else { TacticalKeeps(rules, env, prev.value, records, op); }
    }
  }

  lemma TacticalKeeps(rules: Rules, env: Env, prev: Record, records: seq<Record>, op: Op)
    requires Tactical(op) && !op.ResolveAsk? && prev.ref == op.ref && PlanFor(rules, env, records, prev, op).Write?
    ensures var plan := PlanFor(rules, env, records, prev, op); Keeps(prev, Rewritten(env, prev, plan.rec, plan.powers))
  {
    var plan := PlanFor(rules, env, records, prev, op);
    CopyKeeps(env, prev, plan.rec, plan.powers);
  }

  lemma KeepsSelf(r: Record)
    ensures Keeps(r, r)
  {
  }

  lemma UpsertKeeps(rules: Rules, env: Env, records: seq<Record>, rec: Record, p: Powers, ref: string)
    requires Find(records, ref).Some?
    requires Find(records, rec.ref).Some? ==>
              Keeps(Find(records, rec.ref).value, Rewritten(env, Find(records, rec.ref).value, rec, p))
    ensures var out := Find(Upsert(rules, env, records, rec, p).records, ref);
            out.Some? && Keeps(Find(records, ref).value, out.value)
  {
    KeepsSelf(Find(records, ref).value);
    if Refusal(rules, env, records, rec, p).None? { FindAfterPut(records, Stored(env, records, rec, p), ref); }
  }

  lemma SecondKeeps(rules: Rules, env: Env, held: seq<Record>, second: Record, ref: string)
    requires Find(held, second.ref).None? && Find(held, ref).Some?
    ensures Find(Upsert(rules, env, held, second, Routine).records, ref) == Find(held, ref)
  {
    if Refusal(rules, env, held, second, Routine).None? { FindAfterPut(held, Stored(env, held, second, Routine), ref); }
  }

  lemma BothKeep(rules: Rules, env: Env, records: seq<Record>, first: Record, second: Record, ref: string)
    requires Find(records, ref).Some? && PlanKeeps(env, records, WriteBoth(first, second))
    ensures var out := Find(Carry(rules, env, records, WriteBoth(first, second)).records, ref);
            out.Some? && Keeps(Find(records, ref).value, out.value)
  {
    var one := Upsert(rules, env, records, first, Routine);
    UpsertKeeps(rules, env, records, first, Routine, ref);
    if one.refused.None? {
      FindAfterPut(records, Stored(env, records, first, Routine), second.ref);
      SecondKeeps(rules, env, one.records, second, ref);
    }
  }

  lemma CarryKeeps(rules: Rules, env: Env, records: seq<Record>, plan: Plan, ref: string)
    requires Find(records, ref).Some? && PlanKeeps(env, records, plan)
    ensures var out := Find(Carry(rules, env, records, plan).records, ref);
            out.Some? && Keeps(Find(records, ref).value, out.value)
  {
    KeepsSelf(Find(records, ref).value);
    if plan.Write? { UpsertKeeps(rules, env, records, plan.rec, plan.powers, ref); }
    if plan.WriteBoth? { BothKeep(rules, env, records, plan.first, plan.second, ref); }
  }

  lemma StepKeeps(rules: Rules, env: Env, records: seq<Record>, op: Op, ref: string)
    requires Silent(op) && !op.Close? && Find(records, ref).Some?
    ensures var out := Find(Apply(rules, env, records, op).records, ref);
            out.Some? && Keeps(Find(records, ref).value, out.value)
  {
    PlansKeep(rules, env, records, op);
    CarryKeeps(rules, env, records, PlanOf(rules, env, records, op), ref);
  }

  lemma CloseKeeps(rules: Rules, env: Env, records: seq<Record>, op: Op, ref: string)
    requires op.Close? && op.ref != ref && Find(records, ref).Some?
    ensures Find(Apply(rules, env, records, op).records, ref) == Find(records, ref)
  {
    ClosePlan(rules, env, records, op);
    FindWithout(records, op.ref, ref);
  }

  lemma KeepsTransitive(a: Record, b: Record, c: Record)
    requires Keeps(a, b) && Keeps(b, c)
    ensures Keeps(a, c)
  {
    forall ask | ask in a.tactics.asks ensures ask in c.tactics.asks || Retired(c.tactics.retired, ask) {
      if ask !in b.tactics.asks {
        var x :| x in b.tactics.retired && x.ask == ask;
        assert x in c.tactics.retired;
      }
    }
  }

  function ExecFrom(rules: Rules, records: seq<Record>, calls: seq<(Env, Op)>): seq<Record> {
    if calls == [] then records
    else
      var last := calls[|calls| - 1];
      Apply(rules, last.0, ExecFrom(rules, records, calls[..|calls| - 1]), last.1).records
  }

  /** Whatever the mutators do, short of closing the lane, a stored lane stays, each of its open asks stays open or is
      recorded as retired, its retirement history only grows, and its transfer links are never severed. */
  lemma {:induction false} NothingIsErased(rules: Rules, records: seq<Record>, calls: seq<(Env, Op)>, ref: string)
    requires Find(records, ref).Some?
    requires forall c :: c in calls ==> Silent(c.1) && !(c.1.Close? && c.1.ref == ref)
    ensures var out := Find(ExecFrom(rules, records, calls), ref);
            out.Some? && Keeps(Find(records, ref).value, out.value)
  {
    var start := Find(records, ref).value;
    KeepsSelf(start);
    if calls != [] {
      var front, last := calls[..|calls| - 1], calls[|calls| - 1];
      assert last in calls;
      NothingIsErased(rules, records, front, ref);
      var before := ExecFrom(rules, records, front);
      if last.1.Close? { CloseKeeps(rules, last.0, before, last.1, ref); }
      else {
        StepKeeps(rules, last.0, before, last.1, ref);
        KeepsTransitive(start, Find(before, ref).value, Find(Apply(rules, last.0, before, last.1).records, ref).value);
      }
    }
  }
}
