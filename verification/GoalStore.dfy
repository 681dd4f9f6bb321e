/** The stored record list that the mutators of src/chitra/goals.py rewrite under one lock. */
module GoalStore {
  import opened Basics
  import opened Text
  import opened CompletionGate
  import opened Goals
  import opened EnrolmentContract
  import opened GoalEffects

  /** A call was refused and changed nothing, or wrote its lane as its kind says and touched no other. */
  ghost predicate Settled(env: Env, before: seq<Record>, after: seq<Record>, op: Op, refused: Option<Refused>)
    requires SingleWrite(op)
  {
    if refused.Some? then after == before else Effect(env, before, after, op)
  }

  lemma ApplySettles(rules: Rules, env: Env, records: seq<Record>, op: Op)
    requires SingleWrite(op)
    ensures var out := Apply(rules, env, records, op); Settled(env, records, out.records, op, out.refused)
  {
    if Apply(rules, env, records, op).refused.Some? { RefusedLeavesAll(rules, env, records, op); }
    else { EveryMutatorLeaves(rules, env, records, op); }
  }

  lemma ResolveApplies(rules: Rules, env: Env, records: seq<Record>, op: Op)
    requires op.ResolveAsk?
    ensures var prev := Find(records, op.ref);
            Apply(rules, env, records, op) ==
            if prev.None? then Outcome(records, Some(NotFound))
            else Carry(rules, env, records, PlanResolve(rules, env, prev.value, op))
  {
    var prev := Find(records, op.ref);
    var plan := if prev.None? then Refuse(NotFound) else PlanResolve(rules, env, prev.value, op);
    ResolvePlanOf(rules, env, records, op, plan);
  }

  lemma ResolvePlanOf(rules: Rules, env: Env, records: seq<Record>, op: Op, plan: Plan)
    requires op.ResolveAsk?
    requires var prev := Find(records, op.ref);
             plan == if prev.None? then Refuse(NotFound) else PlanResolve(rules, env, prev.value, op)
    ensures PlanOf(rules, env, records, op) == plan
  {
  }

  lemma ResolvePlans(rules: Rules, env: Env, prev: Record, op: Op)
    requires op.ResolveAsk?
    ensures PlanResolve(rules, env, prev, op).Refuse? || PlanResolve(rules, env, prev, op).Write?
  {
  }

  /** A completed transfer: the original on hold for its successor, the successor scaffolded, every other lane as it
      was. */
  ghost predicate Moved(env: Env, before: seq<Record>, after: seq<Record>, op: Op, successor: string)
    requires op.Transfer?
  {
    var prev, held, next := Find(before, op.ref), Find(after, op.ref), Find(after, successor);
    && prev.Some? && held.Some? && next.Some? && successor != op.ref && NextFree(op.ref, Refs(before), successor)
    && TransferHolds(env, prev.value, held.value, op, successor) && Succeeds(env, prev.value, next.value, op, successor)
    && forall ref :: ref != op.ref && ref != successor ==> Find(after, ref) == Find(before, ref)
  }

  lemma TransferSettles(rules: Rules, env: Env, records: seq<Record>, op: Op)
    requires op.Transfer?
    ensures var out := Apply(rules, env, records, op);
            out.refused.None? ==> exists successor :: Moved(env, records, out.records, op, successor)
  {
    var plan := PlanOf(rules, env, records, op);
    assert plan.Refuse? || plan.WriteBoth?;
    if plan.WriteBoth? {
      TransferEffect(rules, env, records, op);
      var out := Apply(rules, env, records, op);
      if out.refused.None? { assert Moved(env, records, out.records, op, plan.second.ref); }
    }
  }

  /** The store behind the lock. Each mutator reads the records, decides, and rewrites them. */
  class Store {
    var records: seq<Record>

    constructor ()
      ensures records == []
    {
      records := [];
    }

    /** The one guarded write behind every mutator. */
    method UpsertLocked(rules: Rules, env: Env, rec: Record, p: Powers) returns (refused: Option<Refused>)
      modifies this
      ensures Outcome(records, refused) == Upsert(rules, env, old(records), rec, p)
    {
      refused := Refusal(rules, env, records, rec, p);
      if refused.None? {
        var stored := Stored(env, records, rec, p);
        records := Without(records, rec.ref);
        records := records + [stored];
      }
    }

    /** `upsert_goal`: the record as given, past the wording rules and the guarded write. */
    method UpsertGoal(rules: Rules, env: Env, rec: Record, clearAsks: bool) returns (refused: Option<Refused>)
      modifies this
      ensures Outcome(records, refused) == Apply(rules, env, old(records), Op.UpsertGoal(rec, clearAsks))
      ensures Settled(env, old(records), records, Op.UpsertGoal(rec, clearAsks), refused)
    {
      ApplySettles(rules, env, records, Op.UpsertGoal(rec, clearAsks));
      if !Worded(rec) { return Some(Invalid); }
      refused := UpsertLocked(rules, env, rec, Routine.(clearAsks := clearAsks));
    }

    /** `redirect_goal`: the only way to change a strategic value, which records the prior ones. */
    method RedirectGoal(rules: Rules, env: Env, ref: string, reason: string, change: Change, source: Option<string>)
      returns (refused: Option<Refused>)
      modifies this
      ensures Outcome(records, refused) == Apply(rules, env, old(records), Redirect(ref, reason, change, source))
      ensures Settled(env, old(records), records, Redirect(ref, reason, change, source), refused)
    {
      ApplySettles(rules, env, records, Redirect(ref, reason, change, source));
      if Blank(reason) { return Some(Invalid); }
      var found := Find(records, ref);
      if found.None? { return Some(NotFound); }
      var plan := PlanRedirect(rules, env, found.value, Redirect(ref, reason, change, source));
      if plan.Refuse? { return Some(plan.why); }
      refused := UpsertLocked(rules, env, plan.rec, plan.powers);
    }

    /** `record_review_restart`: a history entry of the monitor's own. */
    method RecordReviewRestart(rules: Rules, env: Env, ref: string, previous: string, restarted: string,
                               behavior: string)
      returns (refused: Option<Refused>)
      modifies this
      ensures Outcome(records, refused) ==
              Apply(rules, env, old(records), ReviewRestart(ref, previous, restarted, behavior))
      ensures Settled(env, old(records), records, ReviewRestart(ref, previous, restarted, behavior), refused)
    {
      ApplySettles(rules, env, records, ReviewRestart(ref, previous, restarted, behavior));
      var found := Find(records, ref);
      if found.None? { return Some(NotFound); }
      var event := ReviewRestarted(previous, restarted, behavior, env.now);
      refused := UpsertLocked(rules, env, found.value.(history := found.value.history + [event]),
                              Routine.(metadata := true));
    }

    /** `update_now`: the tactical state, in the values supplied, but never a done status. */
    method UpdateNow(rules: Rules, env: Env, ref: string, now: Option<string>, status: Option<Status>,
                     verified: Option<string>)
      returns (refused: Option<Refused>)
      modifies this
      ensures Outcome(records, refused) == Apply(rules, env, old(records), Op.UpdateNow(ref, now, status, verified))
      ensures Settled(env, old(records), records, Op.UpdateNow(ref, now, status, verified), refused)
    {
      ApplySettles(rules, env, records, Op.UpdateNow(ref, now, status, verified));
      if status.Some? && IsDone(status.value) { return Some(Invalid); }
      var found := Find(records, ref);
      if found.None? { return Some(NotFound); }
      var existing := found.value;
      var tactics := existing.tactics.(now := Get(now, existing.tactics.now),
                                       lastVerified := Get(verified, existing.tactics.lastVerified));
      refused := UpsertLocked(rules, env, existing.(status := Get(status, existing.status), tactics := tactics),
                              Routine);
    }

    /** `mark_completion_gate_passed`: past the enrolment contract and the receipts of every item. */
    method MarkCompletionGatePassed(rules: Rules, env: Env, ref: string, now: string, verified: string,
                                    evidence: seq<Evidence>)
      returns (refused: Option<Refused>)
      modifies this
      ensures Outcome(records, refused) == Apply(rules, env, old(records), GatePassed(ref, now, verified, evidence))
      ensures Settled(env, old(records), records, GatePassed(ref, now, verified, evidence), refused)
    {
      ApplySettles(rules, env, records, GatePassed(ref, now, verified, evidence));
      var found := Find(records, ref);
      if found.None? { return Some(NotFound); }
      var existing := found.value;
      var flaws := ValidateEnrollmentContract(rules, Some(env.registry), existing.anchor, existing.direction.doneWhen);
      if flaws != [] { return Some(BadEnrolment); }
      var proofs := GateProofs(rules.concrete, existing.anchor.items, evidence, env.receipts);
      if proofs.None? { return Some(Incomplete); }
      var passed := existing.(status := DonePendingClose, proofs := proofs.value,
                              tactics := existing.tactics.(now := now, lastVerified := verified));
      refused := UpsertLocked(rules, env, passed, Routine.(done := true, proofs := true));
    }

    /** `hold_goal`: held, with what the later re-arming needs. */
    method HoldGoal(rules: Rules, env: Env, ref: string, reason: string,
                    resumeAt: string) returns (refused: Option<Refused>)
      modifies this
      ensures Outcome(records, refused) == Apply(rules, env, old(records), Hold(ref, reason, resumeAt))
      ensures Settled(env, old(records), records, Hold(ref, reason, resumeAt), refused)
    {
      ApplySettles(rules, env, records, Hold(ref, reason, resumeAt));
      if Blank(reason) || (resumeAt != "" && !rules.isTime(resumeAt)) { return Some(Invalid); }
      var found := Find(records, ref);
      if found.None? { return Some(NotFound); }
      var tactics := found.value.tactics.(holdReason := reason, resumeAt := resumeAt);
      refused := UpsertLocked(rules, env, found.value.(status := Held, tactics := tactics), Routine);
    }

    /** `resume_goal`: a held lane back to work, its hold forgotten. */
    method ResumeGoal(rules: Rules, env: Env, ref: string) returns (refused: Option<Refused>)
      modifies this
      ensures Outcome(records, refused) == Apply(rules, env, old(records), Resume(ref))
      ensures Settled(env, old(records), records, Resume(ref), refused)
    {
      ApplySettles(rules, env, records, Resume(ref));
      var found := Find(records, ref);
      if found.None? { return Some(NotFound); }
      if found.value.status != Held { return Some(NotHeld); }
      var tactics := found.value.tactics.(holdReason := "", resumeAt := "");
      refused := UpsertLocked(rules, env, found.value.(status := Working, tactics := tactics), Routine);
    }

    /** `add_ask`: one open ask, once only. */
    method AddAsk(rules: Rules, env: Env, ref: string, ask: string) returns (refused: Option<Refused>)
      modifies this
      ensures Outcome(records, refused) == Apply(rules, env, old(records), Op.AddAsk(ref, ask))
      ensures Settled(env, old(records), records, Op.AddAsk(ref, ask), refused)
    {
      ApplySettles(rules, env, records, Op.AddAsk(ref, ask));
      var found := Find(records, ref);
      if found.None? { return Some(NotFound); }
      var existing := found.value;
      if ask in existing.tactics.asks { return None; }
      var tactics := existing.tactics.(asks := existing.tactics.asks + [ask]);
      refused := UpsertLocked(rules, env, existing.(tactics := tactics), Routine);
    }

    /** `resolve_ask`: the selected asks leave the open ones and are recorded as retired, in order. */
    method ResolveAsk(rules: Rules, env: Env, ref: string, selector: Selector, byMonitor: bool, basis: Option<string>,
                      citation: Option<string>, authority: string) returns (refused: Option<Refused>)
      modifies this
      ensures Outcome(records, refused) ==
              Apply(rules, env, old(records), Op.ResolveAsk(ref, selector, byMonitor, basis, citation, authority))
      ensures Settled(env, old(records), records, Op.ResolveAsk(ref, selector, byMonitor, basis, citation, authority),
                      refused)
    {
      var op := Op.ResolveAsk(ref, selector, byMonitor, basis, citation, authority);
      ApplySettles(rules, env, records, op);
      ResolveApplies(rules, env, records, op);
      var found := Find(records, ref);
      if found.None? { return Some(NotFound); }
      ResolvePlans(rules, env, found.value, op);
      var plan := PlanResolve(rules, env, found.value, op);
      if plan.Refuse? { return Some(plan.why); }
      refused := UpsertLocked(rules, env, plan.rec, plan.powers);
    }

    /** The hold is written before the successor, whose own write can still be refused. */
    method TransferGoal(rules: Rules, env: Env, op: Op) returns (refused: Option<Refused>)
      requires op.Transfer?
      modifies this
      ensures Outcome(records, refused) == Apply(rules, env, old(records), op)
      ensures refused.None? ==> exists successor :: Moved(env, old(records), records, op, successor)
    {
      TransferSettles(rules, env, records, op);
      var plan := PlanOf(rules, env, records, op);
      if plan.Refuse? { return Some(plan.why); }
      refused := UpsertLocked(rules, env, plan.first, Routine);
      if refused.None? {
        refused := UpsertLocked(rules, env, plan.second, Routine);
      }
    }

    /** Close removes the record: administratively with a reason, otherwise only past the completion gate. */
    method CloseGoal(rules: Rules, env: Env, op: Op) returns (refused: Option<Refused>)
      requires op.Close?
      modifies this
      ensures Outcome(records, refused) == Apply(rules, env, old(records), op)
      ensures records == if refused.Some? then old(records) else Without(old(records), op.ref)
    {
      var plan := PlanOf(rules, env, records, op);
      if plan.Refuse? { return Some(plan.why); }
      refused := None;
      records := Without(records, op.ref);
    }
  }
}
