/** What every run of the goal mutators keeps, from an empty store. */
module GoalRuns {
  import opened Basics
  import opened Text
  import opened CompletionGate
  import opened Goals

  // ---------------------------------------------------------------- the invariant of a record

  /** A done record is backed by its own stored proofs, and nothing awaits verification. */
  predicate DoneIsProven(rules: Rules, r: Record) {
    && !r.status.DonePendingVerification?
    && (r.status.DonePendingClose? ==> AllProven(rules.concrete, r.anchor.items, r.proofs))
  }

  predicate Frozen(rules: Rules, r: Record) {
    && Enrolled(rules, r.anchor, r.direction.doneWhen)
    && r.anchor.lane == LaneOf(r.ref)
  }

  predicate Good(rules: Rules, r: Record) { Frozen(rules, r) && DoneIsProven(rules, r) }

  predicate AllGood(rules: Rules, records: seq<Record>) { forall r :: r in records ==> Good(rules, r) }

  /** No two records share a session or a lane. */
  predicate Pairwise(records: seq<Record>) {
    forall j, k :: 0 <= j < k < |records| ==>
        records[j].ref != records[k].ref && records[j].anchor.lane != records[k].anchor.lane
  }

  // ---------------------------------------------------------------- the journal of a lane

  /** Kept beside the store from the calls alone: the anchor, version and history a lane was
      enrolled with, and the directions given to it since, without surrounding whitespace. */
  datatype Journal = Journal(anchor: Anchor, version: int, history: seq<Event>, values: seq<Direction>)

  /** The journals of the stored lanes, by session. */
  type Diary = map<string, Journal>

  function Given(current: string, change: Option<string>): string {
    if change.Some? then Strip(change.value) else current
  }

  function Redirected(d: Direction, c: Change): Direction {
    Direction(Given(d.goal, c.goal), Given(d.doneWhen, c.doneWhen), Given(d.intent, c.intent), Given(d.scope, c.scope),
              Get(c.policy, d.policy))
  }

  function NoteRedirect(journals: Diary, op: Op): Diary
    requires op.Redirect?
  {
    if op.ref in journals && journals[op.ref].values != [] then
      var j := journals[op.ref];
      journals[op.ref := j.(values := j.values + [Redirected(j.values[|j.values| - 1], op.change)])]
    else journals
  }

  function NoteTransfer(env: Env, journals: Diary, op: Op): Diary
    requires op.Transfer?
  {
    var ref := SuccessorRef(op.ref, journals.Keys, 1);
    if op.ref in journals && journals[op.ref].values != [] && ref.Some? then
      var j := journals[op.ref];
      journals[ref.value := Journal(Anchor(LaneOf(ref.value), Render(j.anchor.items), env.now, j.anchor.interview,
                                           Pinned(env.registry, j.anchor.items)),
                                    1, [], [j.values[|j.values| - 1]])]
    else journals
  }

  /** The journals after an accepted call. */
  function Note(env: Env, journals: Diary, op: Op): Diary {
    match op
    case UpsertGoal(rec, _) =>
      if rec.ref in journals then journals
      else journals[rec.ref := Journal(NewAnchor(env, rec), rec.version, rec.history, [Trim(rec.direction)])]
    case Redirect(_, _, _, _) => NoteRedirect(journals, op)
    case Transfer(_, _, _, _, _) => NoteTransfer(env, journals, op)
    case Close(ref, _, _, _, _) => journals - {ref}
    case _ => journals
  }

  /** The journals a call leaves: only an accepted call is noted. */
  function Noted(env: Env, journals: Diary, op: Op, out: Outcome): Diary {
    if out.refused.None? then Note(env, journals, op) else journals
  }

  /** The strategic entries of a history, trimmed. */
  function Priors(history: seq<Event>): (r: seq<Direction>) {
    if history == [] then []
    else
      var last := history[|history| - 1];
      Priors(history[..|history| - 1]) + if last.Revised? then [Trim(last.prior)] else []
  }

  /** The record's history followed by its current values is the journal's sequence of directions. */
  predicate Follows(r: Record, j: Journal) {
    && j.values != []
    && r.anchor == j.anchor
    && r.version == j.version + |j.values| - 1
    && Priors(r.history) + [Trim(r.direction)] == Priors(j.history) + j.values
  }

  predicate AllFollow(records: seq<Record>, journals: Diary) {
    && Refs(records) == journals.Keys
    && forall r :: r in records ==> r.ref in journals && Follows(r, journals[r.ref])
  }

  ghost predicate Inv(rules: Rules, records: seq<Record>, journals: Diary) {
    Pairwise(records) && AllGood(rules, records) && AllFollow(records, journals)
  }

  // ---------------------------------------------------------------- writes keep the invariant

  /** What a mutator's powers commit it to. */
  predicate Lawful(rules: Rules, prev: Record, rec: Record, p: Powers) {
    && rec.ref == prev.ref
    && (p.strategic ==> Strip(rec.direction.doneWhen) == Strip(prev.direction.doneWhen))
    && (p.done || p.proofs ==> rec.status.DonePendingClose? && AllProven(rules.concrete, prev.anchor.items, rec.proofs))
  }

  lemma RewriteKeepsGood(rules: Rules, env: Env, records: seq<Record>, rec: Record, p: Powers)
    requires Find(records, rec.ref).Some?
    requires Good(rules, Find(records, rec.ref).value) && Lawful(rules, Find(records, rec.ref).value, rec, p)
    requires Refusal(rules, env, records, rec, p).None?
    ensures Good(rules, Stored(env, records, rec, p))
    ensures Stored(env, records, rec, p).anchor == Find(records, rec.ref).value.anchor
  {
  }

  lemma RenderPinned(registry: map<string, string>, items: seq<Item>)
    ensures Render(Pinned(registry, items)) == Render(items)
  {
    assert Texts(Pinned(registry, items)) == Texts(items);
  }

  lemma PinnedItemsOk(rules: Rules, registry: map<string, string>, items: seq<Item>)
    requires ItemsOk(rules, items)
    ensures ItemsOk(rules, Pinned(registry, items))
  {
    var pinned := Pinned(registry, items);
    forall i | i in pinned ensures ItemOk(rules, i) {
      var k :| 0 <= k < |pinned| && pinned[k] == i;
      assert items[k] in items;
    }
  }

  lemma EnrolmentIsGood(rules: Rules, env: Env, records: seq<Record>, rec: Record, p: Powers)
    requires Find(records, rec.ref).None? && !p.done
    requires Refusal(rules, env, records, rec, p).None?
    ensures Good(rules, Stored(env, records, rec, p))
    ensures Stored(env, records, rec, p).anchor == NewAnchor(env, rec)
  {
    RenderPinned(env.registry, rec.anchor.items);
    PinnedItemsOk(rules, env.registry, rec.anchor.items);
  }

  predicate Apart(a: Record, b: Record) { a.ref != b.ref && a.anchor.lane != b.anchor.lane }

  lemma PairwiseTail(records: seq<Record>)
    requires Pairwise(records) && records != []
    ensures Pairwise(records[1..]) && forall r :: r in records[1..] ==> Apart(records[0], r)
  {
    var rest := records[1..];
    assert forall k :: 0 <= k < |rest| ==> rest[k] == records[k + 1];
    forall r | r in rest ensures Apart(records[0], r) { var k :| 0 <= k < |rest| && rest[k] == r; }
  }

  lemma PairwiseCons(r: Record, rest: seq<Record>)
    requires Pairwise(rest) && forall x :: x in rest ==> Apart(r, x)
    ensures Pairwise([r] + rest)
  {
    var all := [r] + rest;
    forall j, k | 0 <= j < k < |all| ensures Apart(all[j], all[k]) {
      assert all[k] == rest[k - 1] && all[k] in rest;
      if j > 0 { assert all[j] == rest[j - 1]; }
    }
  }

  lemma {:induction false} WithoutPairwise(records: seq<Record>, ref: string)
    requires Pairwise(records)
    ensures Pairwise(Without(records, ref))
  {
    if records != [] {
      PairwiseTail(records);
      WithoutPairwise(records[1..], ref);
      PairwiseCons(records[0], Without(records[1..], ref));
    }
  }

  lemma PutPairwise(records: seq<Record>, r: Record)
    requires Pairwise(records) && !LaneConflict(records, r.ref, r.anchor.lane)
    ensures Pairwise(Put(records, r))
  {
    WithoutPairwise(records, r.ref);
    var rest := Without(records, r.ref);
    forall k | 0 <= k < |rest| ensures rest[k].ref != r.ref && rest[k].anchor.lane != r.anchor.lane {
      assert rest[k] in rest;
    }
  }

  lemma FindAfterPut(records: seq<Record>, r: Record, ref: string)
    ensures Find(Put(records, r), ref) == if ref == r.ref then Some(r) else Find(records, ref)
  {
    FindAppend(Without(records, r.ref), [r], ref);
    FindWithout(records, r.ref, ref);
  }

  lemma FindAppend(a: seq<Record>, b: seq<Record>, ref: string)
    ensures Find(a + b, ref) == if Find(a, ref).Some? then Find(a, ref) else Find(b, ref)
  {
    if a == [] { assert a + b == b; } else { assert (a + b)[1..] == a[1..] + b; }
  }

  lemma FindWithout(records: seq<Record>, gone: string, ref: string)
    ensures Find(Without(records, gone), ref) == if ref == gone then None else Find(records, ref)
  {
  }

  predicate Sound(rules: Rules, records: seq<Record>) { Pairwise(records) && AllGood(rules, records) }

  predicate LawfulWrite(rules: Rules, records: seq<Record>, rec: Record, p: Powers) {
    var prev := Find(records, rec.ref);
    if prev.Some? then Lawful(rules, prev.value, rec, p) else !p.done
  }

  lemma StoredLane(rules: Rules, env: Env, records: seq<Record>, rec: Record, p: Powers)
    requires Refusal(rules, env, records, rec, p).None?
    ensures !LaneConflict(records, rec.ref, Stored(env, records, rec, p).anchor.lane)
  {
  }

  lemma UpsertKeeps(rules: Rules, env: Env, records: seq<Record>, rec: Record, p: Powers)
    requires Sound(rules, records) && LawfulWrite(rules, records, rec, p)
    ensures Sound(rules, Upsert(rules, env, records, rec, p).records)
  {
    if Refusal(rules, env, records, rec, p).None? {
      var stored := Stored(env, records, rec, p);
      if Find(records, rec.ref).Some? {
        RewriteKeepsGood(rules, env, records, rec, p);
      } else {
        EnrolmentIsGood(rules, env, records, rec, p);
      }
      StoredLane(rules, env, records, rec, p);
      PutPairwise(records, stored);
      assert forall r :: r in Put(records, stored) ==> r in records || r == stored;
    }
  }

  // ---------------------------------------------------------------- every mutator is lawful

  lemma RedirectLawful(rules: Rules, env: Env, prev: Record, op: Op)
    requires op.Redirect? && PlanRedirect(rules, env, prev, op).Write?
    ensures Lawful(rules, prev, PlanRedirect(rules, env, prev, op).rec, PlanRedirect(rules, env, prev, op).powers)
  {
  }

  lemma GateLawful(rules: Rules, env: Env, prev: Record, op: Op)
    requires op.GatePassed? && PlanGate(rules, env, prev, op).Write?
    ensures Lawful(rules, prev, PlanGate(rules, env, prev, op).rec, PlanGate(rules, env, prev, op).powers)
  {
  }

  lemma WritesAreLawful(rules: Rules, env: Env, records: seq<Record>, op: Op)
    requires PlanOf(rules, env, records, op).Write?
    ensures LawfulWrite(rules, records, PlanOf(rules, env, records, op).rec, PlanOf(rules, env, records, op).powers)
  {
    if op.Redirect? { RedirectLawful(rules, env, Find(records, op.ref).value, op); }
    else if op.GatePassed? { GateLawful(rules, env, Find(records, op.ref).value, op); }
  }

  lemma StepKeepsSound(rules: Rules, env: Env, records: seq<Record>, op: Op)
    requires Sound(rules, records)
    ensures Sound(rules, Apply(rules, env, records, op).records)
  {
    var plan := PlanOf(rules, env, records, op);
    match plan
    case Write(rec, powers) =>
      WritesAreLawful(rules, env, records, op);
      UpsertKeeps(rules, env, records, rec, powers);
    case WriteBoth(first, second) =>
      UpsertKeeps(rules, env, records, first, Routine);
      UpsertKeeps(rules, env, Upsert(rules, env, records, first, Routine).records, second, Routine);
    case Remove(ref) => WithoutPairwise(records, ref);
    case _ =>
  }

  // ---------------------------------------------------------------- the journal is followed

  lemma PutFollows(records: seq<Record>, journals: Diary, r: Record, next: Diary)
    requires AllFollow(records, journals)
    requires next.Keys == journals.Keys + {r.ref} && Follows(r, next[r.ref])
    requires forall ref :: ref in journals && ref != r.ref ==> next[ref] == journals[ref]
    ensures AllFollow(Put(records, r), next)
  {
    var put := Put(records, r);
    assert forall x :: x in put <==> (x in records && x.ref != r.ref) || x == r;
    forall ref ensures ref in Refs(put) <==> ref in next.Keys {
      if ref in next.Keys && ref != r.ref {
        assert ref in Refs(records);
        var x :| x in records && x.ref == ref;
        assert x in put;
      } else if ref == r.ref {
        assert r in put;
      }
    }
  }

  lemma RewriteFollows(rules: Rules, env: Env, records: seq<Record>, rec: Record, p: Powers, j: Journal)
    requires Find(records, rec.ref).Some? && Follows(Find(records, rec.ref).value, j)
    requires Refusal(rules, env, records, rec, p).None? && !p.strategic
    requires p.metadata ==>
              rec.version == Find(records, rec.ref).value.version &&
                Priors(rec.history) == Priors(Find(records, rec.ref).value.history)
    ensures Follows(Stored(env, records, rec, p), j)
  {
    var prev := Find(records, rec.ref).value;
    assert Trim(rec.direction) == Trim(prev.direction);
  }

  lemma RefsAreKeys(records: seq<Record>, journals: Diary, ref: string)
    requires AllFollow(records, journals)
    ensures Find(records, ref).Some? <==> ref in journals
  {
    if ref in journals {
      assert ref in Refs(records);
    }
  }

  /** A routine write leaves every journal standing. */
  lemma RoutineFollows(rules: Rules, env: Env, records: seq<Record>, rec: Record, p: Powers, journals: Diary)
    requires AllFollow(records, journals) && Find(records, rec.ref).Some? && !p.strategic
    requires p.metadata ==>
              rec.version == Find(records, rec.ref).value.version &&
                Priors(rec.history) == Priors(Find(records, rec.ref).value.history)
    ensures AllFollow(Upsert(rules, env, records, rec, p).records, journals)
  {
    if Refusal(rules, env, records, rec, p).None? {
      RefsAreKeys(records, journals, rec.ref);
      RewriteFollows(rules, env, records, rec, p, journals[rec.ref]);
      PutFollows(records, journals, Stored(env, records, rec, p), journals);
    }
  }

  /** A first write opens the journal it is enrolled with. */
  lemma EnrolmentFollows(rules: Rules, env: Env, records: seq<Record>, rec: Record, p: Powers, journals: Diary)
    requires AllFollow(records, journals) && Find(records, rec.ref).None?
    requires Refusal(rules, env, records, rec, p).None?
    ensures AllFollow(Put(records, Stored(env, records, rec, p)),
                      journals[rec.ref := Journal(NewAnchor(env, rec), rec.version, rec.history,
                                                  [Trim(rec.direction)])])
  {
    var stored := Stored(env, records, rec, p);
    var j := Journal(NewAnchor(env, rec), rec.version, rec.history, [Trim(rec.direction)]);
    assert Follows(stored, j);
    PutFollows(records, journals, stored, journals[rec.ref := j]);
  }

  lemma UpsertFollows(rules: Rules, env: Env, records: seq<Record>, rec: Record, p: Powers, journals: Diary)
    requires AllFollow(records, journals) && !p.strategic && !p.metadata
    ensures var out := Upsert(rules, env, records, rec, p);
            AllFollow(out.records, if out.refused.Some? || rec.ref in journals then journals
                                   else journals[rec.ref := Journal(NewAnchor(env, rec), rec.version, rec.history,
                                                                    [Trim(rec.direction)])])
  {
    RefsAreKeys(records, journals, rec.ref);
    if rec.ref in journals {
      RoutineFollows(rules, env, records, rec, p, journals);
    } else if Refusal(rules, env, records, rec, p).None? {
      EnrolmentFollows(rules, env, records, rec, p, journals);
    }
  }

  lemma PriorsGrow(history: seq<Event>, e: Event)
    ensures Priors(history + [e]) == Priors(history) + if e.Revised? then [Trim(e.prior)] else []
  {
    assert (history + [e])[..|history|] == history;
  }

  lemma TrimAmend(d: Direction, c: Change)
    ensures Trim(Amend(d, c)) == Redirected(Trim(d), c)
  {
  }

  lemma LastValue(r: Record, j: Journal)
    requires Follows(r, j)
    ensures j.values[|j.values| - 1] == Trim(r.direction)
  {
    var left, right := Priors(r.history) + [Trim(r.direction)], Priors(j.history) + j.values;
    assert left[|left| - 1] == right[|right| - 1];
  }

  lemma RedirectFollowsOne(rules: Rules, env: Env, prev: Record, op: Op, rec: Record, p: Powers, j: Journal)
    requires op.Redirect? && Follows(prev, j) && PlanRedirect(rules, env, prev, op) == Write(rec, p)
    ensures Follows(Rewritten(env, prev, rec, p),
                    j.(values := j.values + [Redirected(j.values[|j.values| - 1], op.change)]))
  {
    LastValue(prev, j);
    TrimAmend(prev.direction, op.change);
    PriorsGrow(prev.history, Revised(prev.direction, env.now, op.reason));
    assert Priors(rec.history) == Priors(prev.history) + [Trim(prev.direction)];
    assert Priors(prev.history) + [Trim(prev.direction)] + [Trim(rec.direction)] == Priors(j.history) +
           (j.values + [Trim(rec.direction)]);
  }

  lemma RedirectPlan(rules: Rules, env: Env, records: seq<Record>, op: Op)
    requires op.Redirect? && Apply(rules, env, records, op).refused.None?
    ensures Find(records, op.ref).Some?
    ensures var prev := Find(records, op.ref).value;
            var plan := PlanRedirect(rules, env, prev, op);
            && plan.Write? && plan.rec.ref == op.ref
            && Apply(rules, env, records, op).records == Put(records, Rewritten(env, prev, plan.rec, plan.powers))
  {
  }

  lemma NoteRedirectFollows(records: seq<Record>, r: Record, op: Op, journals: Diary)
    requires AllFollow(records, journals) && op.Redirect? && r.ref == op.ref && op.ref in journals
    requires journals[op.ref].values != []
    requires var j := journals[op.ref];
             Follows(r, j.(values := j.values + [Redirected(j.values[|j.values| - 1], op.change)]))
    ensures AllFollow(Put(records, r), NoteRedirect(journals, op))
  {
    PutFollows(records, journals, r, NoteRedirect(journals, op));
  }

  /** The record an accepted redirect leaves, and that it follows the amended journal. */
  lemma RedirectStored(rules: Rules, env: Env, records: seq<Record>, op: Op, journals: Diary) returns (r: Record)
    requires AllFollow(records, journals) && op.Redirect? && Apply(rules, env, records, op).refused.None?
    ensures r.ref == op.ref && Apply(rules, env, records, op).records == Put(records, r)
    ensures op.ref in journals && journals[op.ref].values != []
    ensures var j := journals[op.ref];
            Follows(r, j.(values := j.values + [Redirected(j.values[|j.values| - 1], op.change)]))
  {
    RedirectPlan(rules, env, records, op);
    RefsAreKeys(records, journals, op.ref);
    var prev := Find(records, op.ref).value;
    var plan := PlanRedirect(rules, env, prev, op);
    RedirectFollowsOne(rules, env, prev, op, plan.rec, plan.powers, journals[op.ref]);
    r := Rewritten(env, prev, plan.rec, plan.powers);
  }

  lemma TransferPlan(rules: Rules, env: Env, records: seq<Record>, op: Op)
    requires op.Transfer? && PlanOf(rules, env, records, op).WriteBoth?
    ensures Find(records, op.ref).Some? && SuccessorRef(op.ref, Refs(records), 1).Some?
    ensures var prev, ref := Find(records, op.ref).value, SuccessorRef(op.ref, Refs(records), 1).value;
            var plan := PlanOf(rules, env, records, op);
            && plan.second == Successor(prev, ref, op)
            && Enrolled(rules, plan.second.anchor, plan.second.direction.doneWhen)
            && plan.first ==
              prev.(status := Held, tactics := prev.tactics.(holdReason := op.reason, resumeAt := op.resumeAt),
                                   links := prev.links.(transferredTo := ref))
  {
  }

  function Opened(env: Env, journals: Diary, rec: Record): Diary {
    journals[rec.ref := Journal(NewAnchor(env, rec), rec.version, rec.history, [Trim(rec.direction)])]
  }

  lemma NoteTransferIs(env: Env, prev: Record, op: Op, journals: Diary, second: Record)
    requires op.Transfer? && op.ref in journals && Follows(prev, journals[op.ref])
    requires SuccessorRef(op.ref, journals.Keys, 1) == Some(second.ref)
    requires second == Successor(prev, second.ref, op)
    ensures Note(env, journals, op) == Opened(env, journals, second)
  {
    LastValue(prev, journals[op.ref]);
  }

  /** Hold first, then enrol: whatever is refused, the journals stand. */
  lemma BothFollow(rules: Rules, env: Env, records: seq<Record>, first: Record, second: Record, journals: Diary)
    requires AllFollow(records, journals) && first.ref in journals && second.ref !in journals
    ensures var out := Carry(rules, env, records, WriteBoth(first, second));
            AllFollow(out.records, if out.refused.None? then Opened(env, journals, second) else journals)
  {
    RefsAreKeys(records, journals, first.ref);
    RoutineFollows(rules, env, records, first, Routine, journals);
    UpsertFollows(rules, env, Upsert(rules, env, records, first, Routine).records, second, Routine, journals);
  }

  lemma RemoveFollows(records: seq<Record>, ref: string, journals: Diary)
    requires AllFollow(records, journals)
    ensures AllFollow(Without(records, ref), journals - {ref})
  {
    var rest := Without(records, ref);
    forall x ensures x in Refs(rest) <==> x in (journals - {ref}).Keys {
      if x in journals && x != ref {
        assert x in Refs(records);
        var r :| r in records && r.ref == x;
        assert r in rest;
      }
    }
  }

  predicate Tactical(op: Op) { !op.UpsertGoal? && !op.Redirect? && !op.Transfer? && !op.Close? }

  /** A plan that refuses, does nothing, or rewrites one record without a new version or strategic entry. */
  predicate Modest(records: seq<Record>, plan: Plan) {
    match plan
    case Write(rec, p) =>
      var prev := Find(records, rec.ref);
      prev.Some? && !p.strategic && rec.version == prev.value.version &&
        Priors(rec.history) == Priors(prev.value.history)
    case WriteBoth(_, _) => false
    case Remove(_) => false
    case _ => true
  }

  lemma ModestFollows(rules: Rules, env: Env, records: seq<Record>, plan: Plan, journals: Diary)
    requires AllFollow(records, journals) && Modest(records, plan)
    ensures AllFollow(Carry(rules, env, records, plan).records, journals)
  {
    if plan.Write? { RoutineFollows(rules, env, records, plan.rec, plan.powers, journals); }
  }

  /** Every mutator but enrolment, redirect, transfer and close keeps the direction and the version. */
  lemma TacticalIsModest(rules: Rules, env: Env, records: seq<Record>, op: Op)
    requires Tactical(op)
    ensures Modest(records, PlanOf(rules, env, records, op))
  {
    var prev := Find(records, op.ref);
    if op.ReviewRestart? && prev.Some? {
      PriorsGrow(prev.value.history, ReviewRestarted(op.previous, op.restarted, op.behavior, env.now));
    }
  }

  lemma RedirectStep(rules: Rules, env: Env, records: seq<Record>, op: Op, journals: Diary)
    requires AllFollow(records, journals) && op.Redirect?
    ensures AllFollow(Apply(rules, env, records, op).records, Noted(env, journals, op, Apply(rules, env, records, op)))
  {
    if Apply(rules, env, records, op).refused.None? {
      var r := RedirectStored(rules, env, records, op, journals);
      NoteRedirectFollows(records, r, op, journals);
    }
  }

  lemma EnrolStep(rules: Rules, env: Env, records: seq<Record>, op: Op, journals: Diary)
    requires AllFollow(records, journals) && op.UpsertGoal?
    ensures AllFollow(Apply(rules, env, records, op).records, Noted(env, journals, op, Apply(rules, env, records, op)))
  {
    if ArgumentsOk(rules, op) {
      UpsertFollows(rules, env, records, op.rec, Routine.(clearAsks := op.clearAsks), journals);
    }
  }

  lemma TransferNotes(rules: Rules, env: Env, records: seq<Record>, op: Op, journals: Diary,
                      first: Record, second: Record)
    requires AllFollow(records, journals) && op.Transfer? && PlanOf(rules, env, records, op) == WriteBoth(first, second)
    ensures first.ref in journals && second.ref !in journals && Note(env, journals, op) == Opened(env, journals, second)
  {
    TransferPlan(rules, env, records, op);
    RefsAreKeys(records, journals, op.ref);
    NoteTransferIs(env, Find(records, op.ref).value, op, journals, second);
  }

  lemma TransferStep(rules: Rules, env: Env, records: seq<Record>, op: Op, journals: Diary)
    requires AllFollow(records, journals) && op.Transfer?
    ensures AllFollow(Apply(rules, env, records, op).records, Noted(env, journals, op, Apply(rules, env, records, op)))
  {
    TransferKinds(rules, env, records, op);
    var plan := PlanOf(rules, env, records, op);
    if plan.WriteBoth? {
      TransferNotes(rules, env, records, op, journals, plan.first, plan.second);
      BothFollow(rules, env, records, plan.first, plan.second, journals);
    }
  }

  lemma TransferKinds(rules: Rules, env: Env, records: seq<Record>, op: Op)
    requires op.Transfer?
    ensures PlanOf(rules, env, records, op).Refuse? || PlanOf(rules, env, records, op).WriteBoth?
  {
  }

  lemma CloseKinds(rules: Rules, env: Env, records: seq<Record>, op: Op)
    requires op.Close?
    ensures PlanOf(rules, env, records, op).Refuse? || PlanOf(rules, env, records, op) == Remove(op.ref)
  {
  }

  lemma ClosePlan(rules: Rules, env: Env, records: seq<Record>, op: Op)
    requires op.Close?
    ensures var out := Apply(rules, env, records, op);
            out.records == if out.refused.None? then Without(records, op.ref) else records
  {
    CloseKinds(rules, env, records, op);
  }

  lemma CloseFollows(env: Env, records: seq<Record>, op: Op, out: Outcome, journals: Diary)
    requires AllFollow(records, journals) && op.Close?
    requires out.records == if out.refused.None? then Without(records, op.ref) else records
    ensures AllFollow(out.records, Noted(env, journals, op, out))
  {
    RemoveFollows(records, op.ref, journals);
  }

  lemma CloseStep(rules: Rules, env: Env, records: seq<Record>, op: Op, journals: Diary)
    requires AllFollow(records, journals) && op.Close?
    ensures AllFollow(Apply(rules, env, records, op).records, Noted(env, journals, op, Apply(rules, env, records, op)))
  {
    ClosePlan(rules, env, records, op);
    CloseFollows(env, records, op, Apply(rules, env, records, op), journals);
  }

  lemma StepFollows(rules: Rules, env: Env, records: seq<Record>, op: Op, journals: Diary)
    requires AllFollow(records, journals)
    ensures AllFollow(Apply(rules, env, records, op).records, Noted(env, journals, op, Apply(rules, env, records, op)))
  {
    if op.UpsertGoal? { EnrolStep(rules, env, records, op, journals); }
    else if op.Redirect? { RedirectStep(rules, env, records, op, journals); }
    else if op.Transfer? { TransferStep(rules, env, records, op, journals); }
    else if op.Close? { CloseStep(rules, env, records, op, journals); }
    else {
      TacticalIsModest(rules, env, records, op);
      ModestFollows(rules, env, records, PlanOf(rules, env, records, op), journals);
    }
  }
}
