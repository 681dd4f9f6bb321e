/** The watched-session review round of src/chitra/goal_enforcement.py.

    The goal store is adversarial: its n-th read, the n-th reviewer reply and the n-th
    restart write are arbitrary. A contract id is an injective digest of the frozen values, so
    the values themselves stand for it. */
module Review {
  import opened Basics
  import opened Text
  import opened Goals
  import opened GoalRuns

  datatype Contract = Contract(ref: string, intent: string, goal: string, doneWhen: string, scope: string,
                               source: string,
                               version: int, policy: string)

  /** The interview-bypass criteria on top of the wording and enrolment rules. */
  predicate Specified(r: Record) {
    && WordCount(r.direction.intent) >= 8 && WordCount(r.direction.goal) >= 6
    && !Blank(r.direction.doneWhen) && WordCount(r.direction.doneWhen) >= 5 && WordCount(r.direction.scope) >= 4
    && (StartsWith(r.source, "task-file") || StartsWith(r.source, "branch") ||
        StartsWith(r.source, "transcript-first-msg"))
  }

  function FreezeGoal(rules: Rules, r: Record): Result<Contract> {
    if !Worded(r) || !Enrolled(rules, r.anchor, r.direction.doneWhen) || !Specified(r) || r.version < 1
    then Err("not strict-valid")
    else Ok(Contract(r.ref, r.direction.intent, r.direction.goal, OrElse(r.anchor.doneWhen, r.direction.doneWhen),
                     r.direction.scope,
                     r.source, r.version, r.direction.policy))
  }

  /** A stored goal freezes exactly when it is worded, enrolled, specific enough and versioned, and its contract is
      its own values, with the conditions frozen at enrolment before the current ones. */
  lemma GoalFreezesIff(rules: Rules, r: Record)
    ensures FreezeGoal(rules, r).Ok? <==>
              && !Blank(r.direction.goal) && WordCount(r.direction.goal) >= 6 && !Blank(r.source)
              && !Blank(r.direction.doneWhen) && WordCount(r.direction.doneWhen) >= 5
              && WordCount(r.direction.intent) >= 8 && WordCount(r.direction.scope) >= 4
              && (StartsWith(r.source, "task-file") || StartsWith(r.source, "branch")
                  || StartsWith(r.source, "transcript-first-msg"))
              && Enrolled(rules, r.anchor, r.direction.doneWhen) && r.version >= 1
    ensures FreezeGoal(rules, r).Ok? ==>
              var c := FreezeGoal(rules, r).value;
              && c.ref == r.ref && c.intent == r.direction.intent && c.goal == r.direction.goal
              && c.scope == r.direction.scope && c.source == r.source && c.version == r.version
              && c.policy == r.direction.policy
              && c.doneWhen == if r.anchor.doneWhen != "" then r.anchor.doneWhen else r.direction.doneWhen
  {
  }

  datatype Verdict = Accept | Reject | Insufficient
  datatype ReviewerId = ReviewerId(round: nat, index: nat)
  datatype Reply = Reply(id: ReviewerId, contract: Contract, behavior: string, verdict: Verdict, findings: seq<string>)
  datatype Signal = Signal(contract: Contract, behavior: string, verdict: Verdict, reviewers: seq<ReviewerId>,
                           findings: seq<string>, restarted: bool)

  /** What the store, the reviewer processes and the restart writes answer, in order: the n-th read of the goal,
      found and frozen, the n-th reviewer reply, and whether the n-th restart write landed. */
  datatype World = World(goals: nat -> Result<Contract>, replies: nat -> Option<Reply>, writes: nat -> bool)

  predicate Bound(reply: Option<Reply>, id: ReviewerId, contract: Contract, behavior: string) {
    reply.Some? && reply.value.id == id && reply.value.contract == contract && reply.value.behavior == behavior
  }

  function Flatten(replies: seq<Reply>): seq<string> {
    if replies == [] then [] else Flatten(replies[..|replies| - 1]) + replies[|replies| - 1].findings
  }

  /** Unanimity accepts, any reject rejects, anything else is insufficient. */
  function MakeSignal(contract: Contract, behavior: string, replies: seq<Reply>, restarted: bool): (s: Signal)
    ensures s.verdict.Accept? <==> forall x :: x in replies ==> x.verdict.Accept?
    ensures s.verdict.Reject? <==> exists x :: x in replies && x.verdict.Reject?
    ensures |s.reviewers| == |replies| && forall k :: 0 <= k < |replies| ==> s.reviewers[k] == replies[k].id
    ensures s.contract == contract && s.behavior == behavior && s.restarted == restarted
    ensures s.findings == Flatten(replies)
  {
    var verdict := if forall x :: x in replies ==> x.verdict.Accept? then Accept
                   else if exists x :: x in replies && x.verdict.Reject? then Reject else Insufficient;
    Signal(contract, behavior, verdict, seq(|replies|, k requires 0 <= k < |replies| => replies[k].id),
           Flatten(replies), restarted)
  }

  predicate Stable(w: World, contract: Contract, from: nat, to: nat) {
    forall k :: from <= k <= to ==> w.goals(k) == Ok(contract)
  }

  /** The replies from call `first` on are bound to one contract, which the store still held after each. */
  predicate Round(w: World, behavior: string, number: nat, contract: Contract, read: nat, first: nat,
                  replies: seq<Reply>) {
    && Stable(w, contract, read, read + |replies|)
    && (forall k :: 0 <= k < |replies| ==> Bound(Some(replies[k]), ReviewerId(number, k + 1), contract, behavior))
    && (forall k :: 0 <= k < |replies| ==> w.replies(first + k) == Some(replies[k]))
  }

  datatype Restart = Restart(previous: Contract, restarted: Contract, behavior: string)

  datatype RoundEnd = Complete(replies: seq<Reply>) | Redirected(now: Contract) | Failed(why: string)

  function Least0(n: int): nat { if n < 0 then 0 else n }

  function CheckReply(reply: Option<Reply>, id: ReviewerId, contract: Contract, behavior: string): (r: Result<Reply>)
    ensures r.Ok? <==> Bound(reply, id, contract, behavior)
    ensures r.Ok? ==> reply == Some(r.value)
  {
    if reply.None? then Err("reviewer process")
    else if reply.value.id != id then Err("identity")
    else if reply.value.contract != contract then Err("stale goal binding")
    else if reply.value.behavior != behavior then Err("stale behavior binding")
    else Ok(reply.value)
  }

  predicate BoundAt(w: World, behavior: string, number: nat, contract: Contract, first: nat, k: nat) {
    Bound(w.replies(first + k), ReviewerId(number, k + 1), contract, behavior)
  }

  /** The first `n` replies of a round are bound to its contract and to their reviewers. */
  predicate AllBound(w: World, behavior: string, number: nat, contract: Contract, first: nat, n: nat) {
    forall k: nat :: k < n ==> BoundAt(w, behavior, number, contract, first, k)
  }

  /** A round fails at its last call only because that reply is not bound or the read after it failed. */
  predicate RoundFails(w: World, behavior: string, number: nat, contract: Contract, read: nat, first: nat, calls: nat) {
    && calls > 0 && Stable(w, contract, read, read + calls - 1) &&
      AllBound(w, behavior, number, contract, first, calls - 1)
    && (!Bound(w.replies(first + calls - 1), ReviewerId(number, calls), contract, behavior) ||
        w.goals(read + calls).Err?)
  }

  /** A round is interrupted at its last call because the store then held another contract. */
  predicate RoundRedirected(w: World, behavior: string, number: nat, contract: Contract, read: nat, first: nat,
                            calls: nat, now: Contract) {
    && calls > 0 && Stable(w, contract, read, read + calls - 1) && AllBound(w, behavior, number, contract, first, calls)
    && now != contract && w.goals(read + calls) == Ok(now)
  }

  /** One round of at most `size` isolated reviewers. */
  method RunRound(w: World, behavior: string, number: nat, size: nat, contract: Contract, read: nat, first: nat)
    returns (end: RoundEnd, calls: nat)
    requires w.goals(read) == Ok(contract)
    ensures calls <= size
    ensures end.Complete? ==>
              calls == size == |end.replies| && Round(w, behavior, number, contract, read, first, end.replies)
    ensures end.Redirected? ==> RoundRedirected(w, behavior, number, contract, read, first, calls, end.now)
    ensures end.Failed? ==> RoundFails(w, behavior, number, contract, read, first, calls)
  {
    var replies: seq<Reply> := [];
    calls := 0;
    while calls < size
      invariant calls == |replies| <= size
      invariant Round(w, behavior, number, contract, read, first, replies)
      invariant AllBound(w, behavior, number, contract, first, calls)
    {
      var reply := CheckReply(w.replies(first + calls), ReviewerId(number, calls + 1), contract, behavior);
      calls := calls + 1;
      if reply.Err? { return Failed(reply.error), calls; }
      var current := w.goals(read + calls);
      if current.Err? { return Failed(current.error), calls; }
      if current.value != contract { return Redirected(current.value), calls; }
      replies := replies + [reply.value];
    }
    end := Complete(replies);
  }

  /** The signal of a round that ended after `calls` calls and `seen` reads. */
  predicate SignalFrom(w: World, behavior: string, restarts: nat, size: nat, seen: nat, calls: nat, signal: Signal,
                       replies: seq<Reply>) {
    && |replies| == size <= calls && size < seen
    && Round(w, behavior, restarts + 1, signal.contract, seen - size - 1, calls - size, replies)
    && signal == MakeSignal(signal.contract, behavior, replies, restarts > 0)
  }

  function RoundSize(count: nat, restarts: nat): nat { if restarts == 0 then count else 1 }

  /** An interrupted round: the contract it froze, its first read and call, and how many calls it made. */
  datatype Past = Past(contract: Contract, read: nat, first: nat, calls: nat)

  /** Where the next round reads and calls. */
  function NextRead(past: seq<Past>): nat {
    if past == [] then 0 else past[|past| - 1].read + past[|past| - 1].calls + 1
  }
  function NextCall(past: seq<Past>): nat { if past == [] then 0 else past[|past| - 1].first + past[|past| - 1].calls }

  /** The rounds follow one another, each was interrupted by the redirect its restart records, and each restart was
      written. */
  predicate Restarted(w: World, behavior: string, count: nat, past: seq<Past>, restarts: seq<Restart>) {
    if past == [] || restarts == [] then past == [] && restarts == []
    else
      var n, p, r := |past| - 1, past[|past| - 1], restarts[|restarts| - 1];
      && Restarted(w, behavior, count, past[..n], restarts[..|restarts| - 1])
      && p.read == NextRead(past[..n]) && p.first == NextCall(past[..n]) && p.calls <= RoundSize(count, n)
      && w.writes(n) && r.previous == p.contract && r.behavior == behavior
      && RoundRedirected(w, behavior, n + 1, p.contract, p.read, p.first, p.calls, r.restarted)
  }

  lemma {:induction false} AsManyRestarts(w: World, behavior: string, count: nat, past: seq<Past>,
                                          restarts: seq<Restart>)
    requires Restarted(w, behavior, count, past, restarts)
    ensures |past| == |restarts|
  {
    if past != [] { AsManyRestarts(w, behavior, count, past[..|past| - 1], restarts[..|restarts| - 1]); }
  }

  /** Why a review may end without a signal: the goal cannot be read, a round fails, or a redirect cannot be recorded
      or is one too many. */
  predicate GivesUp(w: World, behavior: string, past: seq<Past>, calls: nat, maxRestarts: int) {
    var read, first, number := NextRead(past), NextCall(past), |past| + 1;
    || w.goals(read).Err?
    || (calls > first && RoundFails(w, behavior, number, w.goals(read).value, read, first, calls - first))
    || (calls > first && !w.writes(|past|) && w.goals(read + calls - first).Ok?
        && RoundRedirected(w, behavior, number, w.goals(read).value, read, first, calls - first,
                           w.goals(read + calls - first).value))
    || |past| > maxRestarts
  }

  lemma OneMorePast(w: World, behavior: string, count: nat, past: seq<Past>, restarts: seq<Restart>, p: Past,
                    now: Contract)
    requires Restarted(w, behavior, count, past, restarts)
    requires Follows(w, behavior, count, past, p, Restart(p.contract, now, behavior))
    ensures Restarted(w, behavior, count, past + [p], restarts + [Restart(p.contract, now, behavior)])
  {
    var more, done := past + [p], restarts + [Restart(p.contract, now, behavior)];
    AsManyRestarts(w, behavior, count, past, restarts);
    assert more[..|past|] == past && done[..|restarts|] == restarts;
  }

  lemma {:induction false} RestartsNameChanges(w: World, behavior: string, count: nat, past: seq<Past>,
                                               restarts: seq<Restart>)
    requires Restarted(w, behavior, count, past, restarts)
    ensures forall x :: x in restarts ==> x.previous != x.restarted && x.behavior == behavior
  {
    if past != [] { RestartsNameChanges(w, behavior, count, past[..|past| - 1], restarts[..|restarts| - 1]); }
  }

  /** At most one call per interrupted round after the first. */
  lemma {:induction false} PastCalls(w: World, behavior: string, count: nat, past: seq<Past>, restarts: seq<Restart>)
    requires Restarted(w, behavior, count, past, restarts) && count >= 1
    ensures NextCall(past) <= if past == [] then 0 else count + |past| - 1
  {
    if past != [] { PastCalls(w, behavior, count, past[..|past| - 1], restarts[..|restarts| - 1]); }
  }

  datatype RoundOutcome = Finished(r: Result<Signal>) | Again(past: Past, restart: Restart)

  /** The round interrupted here continues the earlier ones. */
  predicate Follows(w: World, behavior: string, count: nat, past: seq<Past>, p: Past, restart: Restart) {
    && p.read == NextRead(past) && p.first == NextCall(past) && p.calls <= RoundSize(count, |past|) && w.writes(|past|)
    && restart == Restart(p.contract, restart.restarted, behavior)
    && RoundRedirected(w, behavior, |past| + 1, p.contract, p.read, p.first, p.calls, restart.restarted)
  }

  /** The review ends with this signal, from a full round after the interrupted ones. */
  ghost predicate Signals(w: World, behavior: string, count: nat, past: seq<Past>, calls: nat, seen: nat,
                          signal: Signal) {
    && calls == NextCall(past) + RoundSize(count, |past|) && seen == NextRead(past) + RoundSize(count, |past|) + 1
    && exists replies :: SignalFrom(w, behavior, |past|, RoundSize(count, |past|), seen, calls, signal, replies)
  }

  /** One pass of the loop: freeze the goal, run a round, and record a redirect. */
  method TryRound(w: World, behavior: string, count: nat, maxRestarts: int, past: seq<Past>)
    returns (out: RoundOutcome, calls: nat, seen: nat)
    requires count >= 1
    ensures out.Again? ==> Follows(w, behavior, count, past, out.past, out.restart)
    ensures out.Again? ==> calls == NextCall(past) + out.past.calls && seen == NextRead(past) + out.past.calls + 1
    ensures out.Finished? ==> calls <= NextCall(past) + RoundSize(count, |past|)
    ensures out.Finished? && out.r.Ok? ==> Signals(w, behavior, count, past, calls, seen, out.r.value)
    ensures out.Finished? && out.r.Err? ==> GivesUp(w, behavior, past, calls, maxRestarts)
  {
    var read, first, size := NextRead(past), NextCall(past), RoundSize(count, |past|);
    calls, seen := first, read + 1;
    var frozen := w.goals(read);
    if frozen.Err? { return Finished(Err(frozen.error)), calls, seen; }
    var end, made := RunRound(w, behavior, |past| + 1, size, frozen.value, read, first);
    calls, seen := first + made, read + 1 + made;
    match end
    case Failed(why) => out := Finished(Err(why));
    case Complete(replies) =>
      var signal := MakeSignal(frozen.value, behavior, replies, |past| > 0);
      assert SignalFrom(w, behavior, |past|, size, seen, calls, signal, replies);
      out := Finished(Ok(signal));
    case Redirected(now) =>
      if w.writes(|past|) { out := Again(Past(frozen.value, read, first, made), Restart(frozen.value, now, behavior)); }
      else { out := Finished(Err("restart not recorded")); }
  }

  /** The rounds of a review, until one completes or the review gives up. */
  method ReviewRounds(w: World, behavior: string, count: nat, maxRestarts: int)
    returns (r: Result<Signal>, calls: nat, seen: nat, restarts: seq<Restart>, past: seq<Past>)
    requires count >= 1
    ensures |past| == |restarts| <= Least0(maxRestarts) + 1 && Restarted(w, behavior, count, past, restarts)
    ensures calls <= NextCall(past) + (if |past| <= Least0(maxRestarts) then RoundSize(count, |past|) else 0)
    ensures r.Ok? ==> |past| <= Least0(maxRestarts) && Signals(w, behavior, count, past, calls, seen, r.value)
    ensures r.Err? ==> GivesUp(w, behavior, past, calls, maxRestarts)
  {
    restarts, past := [], [];
    while true
      invariant |past| == |restarts| <= Least0(maxRestarts) && Restarted(w, behavior, count, past, restarts)
      decreases Least0(maxRestarts) - |past|
    {
      var out;
      out, calls, seen := TryRound(w, behavior, count, maxRestarts, past);
      if out.Finished? { return out.r, calls, seen, restarts, past; }
      OneMorePast(w, behavior, count, past, restarts, out.past, out.restart.restarted);
      restarts, past := restarts + [out.restart], past + [out.past];
      if |restarts| > maxRestarts { return Err("restart limit exceeded"), calls, seen, restarts, past; }
    }
  }

  /** The whole review. However the store changes, it makes at most one round of `count` calls plus one call
      per permitted restart; a signal comes from one round whose every verdict is bound to a contract
      the store still held after that verdict. Every round before the last was interrupted by a redirect that was
      recorded, and only the listed mishaps end a review without a signal. */
  method ReviewWatchedSession(w: World, ref: string, behaviorRef: string, behavior: string, count: int,
                              maxRestarts: int)
    returns (r: Result<Signal>, calls: nat, seen: nat, restarts: seq<Restart>, past: seq<Past>)
    ensures calls <= Least0(count) + Least0(maxRestarts)
    ensures |restarts| <= Least0(maxRestarts) + 1
    ensures forall x :: x in restarts ==> x.previous != x.restarted && x.behavior == behavior
    ensures r.Ok? ==> count >= 1 && behaviorRef == ref && |restarts| <= Least0(maxRestarts)
    ensures r.Ok? ==> Signals(w, behavior, count, past, calls, seen, r.value)
    ensures Restarted(w, behavior, Least0(count), past, restarts)
    ensures r.Err? && count >= 1 && behaviorRef == ref ==> GivesUp(w, behavior, past, calls, maxRestarts)
  {
    if count < 1 { return Err("reviewer count"), 0, 0, [], []; }
    if behaviorRef != ref { return Err("behavior session"), 0, 0, [], []; }
    r, calls, seen, restarts, past := ReviewRounds(w, behavior, count, maxRestarts);
    RestartsNameChanges(w, behavior, count, past, restarts);
    PastCalls(w, behavior, count, past, restarts);
  }

  // ---------------------------------------------------------------- restart events do not redirect

  function Frozen(rules: Rules, records: seq<Record>, ref: string): Result<Contract> {
    var r := Find(records, ref);
    if r.None? then Err("not found") else FreezeGoal(rules, r.value)
  }

  /** A write that repeats the direction and the version leaves the contract of every lane as it was. */
  lemma SameContracts(rules: Rules, env: Env, records: seq<Record>, rec: Record, p: Powers, ref: string)
    requires Find(records, rec.ref).Some?
    requires var prev := Find(records, rec.ref).value;
             rec.direction == prev.direction && rec.source == prev.source && rec.version == prev.version
    ensures Frozen(rules, Upsert(rules, env, records, rec, p).records, ref) == Frozen(rules, records, ref)
  {
    if Refusal(rules, env, records, rec, p).None? {
      FindAfterPut(records, Stored(env, records, rec, p), ref);
    }
  }

  predicate Repeats(records: seq<Record>, plan: Plan) {
    match plan
    case Write(rec, _) =>
      var prev := Find(records, rec.ref);
      prev.Some? && rec.direction == prev.value.direction && rec.source == prev.value.source &&
        rec.version == prev.value.version
    case WriteBoth(_, _) => false
    case Remove(_) => false
    case _ => true
  }

  lemma TacticalRepeats(rules: Rules, env: Env, records: seq<Record>, op: Op)
    requires Tactical(op)
    ensures Repeats(records, PlanOf(rules, env, records, op))
  {
  }

  lemma RepeatKeepsContracts(rules: Rules, env: Env, records: seq<Record>, plan: Plan, ref: string)
    requires Repeats(records, plan)
    ensures Frozen(rules, Carry(rules, env, records, plan).records, ref) == Frozen(rules, records, ref)
  {
    if plan.Write? { SameContracts(rules, env, records, plan.rec, plan.powers, ref); }
  }

  /** Recording a restart, like every other tactical mutator, changes no lane's contract, so it cannot itself be
      seen as a redirect by this review or another. */
  lemma TacticsNeverRedirect(rules: Rules, env: Env, records: seq<Record>, op: Op, ref: string)
    requires Tactical(op)
    ensures Frozen(rules, Apply(rules, env, records, op).records, ref) == Frozen(rules, records, ref)
  {
    TacticalRepeats(rules, env, records, op);
    RepeatKeepsContracts(rules, env, records, PlanOf(rules, env, records, op), ref);
  }

  lemma RedirectedVersion(rules: Rules, env: Env, prev: Record, op: Op)
    requires op.Redirect? && PlanRedirect(rules, env, prev, op).Write?
    ensures var plan := PlanRedirect(rules, env, prev, op);
            Rewritten(env, prev, plan.rec, plan.powers).version == prev.version + 1
  {
  }

  lemma VersionsDiffer(rules: Rules, before: Record, after: Record)
    requires FreezeGoal(rules, before).Ok? && before.version != after.version
    ensures FreezeGoal(rules, after) != FreezeGoal(rules, before)
  {
  }

  /** And an accepted redirect never escapes notice: the lane's contract is a different one afterwards. */
  lemma RedirectIsNoticed(rules: Rules, env: Env, records: seq<Record>, op: Op)
    requires op.Redirect? && Apply(rules, env, records, op).refused.None? && Frozen(rules, records, op.ref).Ok?
    ensures Frozen(rules, Apply(rules, env, records, op).records, op.ref) != Frozen(rules, records, op.ref)
  {
    RedirectPlan(rules, env, records, op);
    var prev := Find(records, op.ref).value;
    var plan := PlanRedirect(rules, env, prev, op);
    var stored := Rewritten(env, prev, plan.rec, plan.powers);
    RedirectedVersion(rules, env, prev, op);
    FindAfterPut(records, stored, op.ref);
    VersionsDiffer(rules, prev, stored);
  }
}
