/** What becomes of every order: from the goal, hold and lifecycle values it meets to where it ends up and with what
    result. */
module DispatchFates {
  import opened Basics
  import opened DispatchQueue
  import opened DispatchSafety
  import opened DispatchTheorems

  // ---------------------------------------------------------------- the verdicts, on the stored fields alone

  datatype Fate = Delivered | Refused | Postponed

  /** What the stored goal says to an order; None lets it pass. */
  function GoalVerdict(o: Order, goal: Option<Goal>, answerValid: bool): Option<Fate> {
    if o.goalVersion.None? && o.goalDigest.None? then None
    else if goal.None? then Some(Refused)
    else
      var g := goal.value;
      if o.goalVersion != Some(g.version) || o.goalDigest != Some(g.content) then Some(Refused)
      else if g.status.Held? then Some(if o.kind.OperatorRelay? then Postponed else Refused)
      else if g.status.DonePendingVerification? || g.status.DonePendingClose? then Some(Refused)
      else if o.kind.GoalContractAnswer? && !answerValid then Some(Refused)
      else None
  }

  function LifeVerdict(o: Order, life: Life): Option<Fate> {
    match life
    case NoRecord => None
    case Active => None
    case Paused => if o.task.PausePruneTask? then None else Some(Postponed)
    case Shelved => Some(Postponed)
    case Closed => Some(Refused)
    case UnknownState => Some(Refused)
    case Unreadable => Some(Refused)
  }

  /** A rate-limit or load-shed hold, unless the order carries a sealed bypass. */
  predicate HoldPostpones(o: Order, goal: Option<Goal>) {
    !(o.bypass && o.task.GuardTask?) && goal.Some? && goal.value.status.Held? && goal.value.guardHold
  }

  function FateOf(o: Order, goal: Option<Goal>, answerValid: bool, life: Life): Fate {
    if GoalVerdict(o, goal, answerValid).Some? then GoalVerdict(o, goal, answerValid).value
    else if LifeVerdict(o, life).Some? then LifeVerdict(o, life).value
    else if HoldPostpones(o, goal) then Postponed
    else Delivered
  }

  lemma GateReads(o: Order, goal: Option<Goal>, answerValid: bool)
    ensures var r := GoalRejection(o, goal, answerValid);
            && (GoalVerdict(o, goal, answerValid).None? <==> r.NoRejection?)
            && (GoalVerdict(o, goal, answerValid) == Some(Postponed) <==> r.GoalHeld? && o.kind.OperatorRelay?)
  {
  }

  // ---------------------------------------------------------------- what an attempt may end with

  /** The status a checking or sending step of a thread ends its attempt with, if it does, on what it reads. */
  function EndsWith(goal: Option<Goal>, life: Life, p: Proof, th: Thread, a: ThreadAct): Option<Status>
    requires th.body.Readable?
  {
    var o := th.body.order;
    match a
    case ClaimA(PreGate(answerValid, veto, _)) =>
      if GoalVerdict(o, goal, answerValid) == Some(Refused) then Some(Blocked)
      else if GoalVerdict(o, goal, answerValid).None? then veto else None
    case GateA(GoalGate(answerValid)) =>
      if GoalVerdict(o, goal, answerValid) == Some(Refused) then Some(Blocked) else None
    case GateA(LifeGate) => if LifeVerdict(o, life) == Some(Refused) then Some(Blocked) else None
    case GateA(OwnerGate(refused)) => if refused then Some(Blocked) else None
    case SendA(NonceGate(confirmed, laneDead)) =>
      if laneDead then Some(Failed) else if !p.nonce then None else if confirmed then Some(Sent) else Some(Unconfirmed)
    case SendA(Send(_, status)) => Some(status)
    case _ => None
  }

  lemma GateEnds(q: Core, c: Ctx, th: Thread, a: GateAct)
    requires CanGate(c, th, a) && th.body.Readable?
    ensures var status := EndsWith(c.goal, c.life, q.proof, th, GateA(a));
            GateStep(q, c, th, a).core.proof.concluded ==
            if status.Some? then Some(Conclusion(status.value, th.body)) else q.proof.concluded
  {
    if a.GoalGate? { GateReads(th.body.order, c.goal, a.answerValid); }
  }

  lemma ActEnds(q: Core, c: Ctx, th: Thread, a: ThreadAct)
    requires CanAct(q, c, th, a) && th.body.Readable? && !(a.ClaimA? && a.c.Read?)
    ensures var status := EndsWith(c.goal, c.life, q.proof, th, a);
            ActStep(q, c, th, a).core.proof.concluded ==
            if status.Some? then Some(Conclusion(status.value, th.body)) else q.proof.concluded
  {
    match a
    case ClaimA(b) => if b.PreGate? { GateReads(th.body.order, c.goal, b.answerValid); }
    case GateA(b) => GateEnds(q, c, th, b);
    case _ =>
  }

  /** Over every step of every run: an attempt ends with a status exactly when its check or its send says so, and the
      conclusion names that status and the order in hand. */
  lemma AttemptsEndAsJudged(s: State, x: string, t: nat, a: ThreadAct)
    requires CanStep(s, On(x, ByThread(t, a))) && x in s.entries && t in s.entries[x].threads
    requires s.entries[x].threads[t].body.Readable? && !(a.ClaimA? && a.c.Read?)
    ensures var th, p := s.entries[x].threads[t], ProofOf(s, x);
            var lane := th.body.order.session;
            var status := EndsWith(GoalOf(s, lane), if lane in s.lives then s.lives[lane] else NoRecord, p, th, a);
            ProofOf(DoStep(s, On(x, ByThread(t, a))), x).concluded ==
            if status.Some? then Some(Conclusion(status.value, th.body)) else p.concluded
  {
    ActEnds(s.entries[x].core, CtxOf(s, x, ByThread(t, a)), s.entries[x].threads[t], a);
  }

  /** The outcome other than a status that a program point carries: put off, already settled, or left for the ledger. */
  function Pends(pc: Pc): Option<Outcome> {
    if (pc.AtUnlock? || pc.Decided?) && !pc.out.ResultOf? then Some(pc.out)
    else if pc.AtDeferLink? then Some(Defer) else None
  }

  function Put(off: bool): Option<Outcome> { if off then Some(Defer) else None }

  /** Why a checking or sending step leaves an order without a status, on what it reads. */
  function LeftWith(goal: Option<Goal>, life: Life, p: Proof, th: Thread, a: ThreadAct): Option<Outcome>
    requires th.body.Readable?
  {
    var o := th.body.order;
    match a
    case ClaimA(PreGate(answerValid, _, _)) => Put(GoalVerdict(o, goal, answerValid) == Some(Postponed))
    case GateA(LockTimeout) => Some(Defer)
    case GateA(Recheck) => if p.result.Some? then Some(ExistingResult) else None
    case GateA(GoalGate(answerValid)) => Put(GoalVerdict(o, goal, answerValid) == Some(Postponed))
    case GateA(LifeGate) => Put(LifeVerdict(o, life) == Some(Postponed))
    case GateA(HoldGate) => Put(HoldPostpones(o, goal))
    case GateA(Raise) => Some(LedgerPending)
    case GateA(Unlock) => Pends(th.pc)
    case SendA(Sign(ledgerUp)) => if ledgerUp then None else Some(LedgerPending)
    case _ => None
  }

  lemma GatePends(q: Core, c: Ctx, th: Thread, a: GateAct)
    requires CanGate(c, th, a) && th.body.Readable?
    ensures var m := GateStep(q, c, th, a);
            m.th.Some? && Pends(m.th.value.pc) == LeftWith(c.goal, c.life, q.proof, th, GateA(a))
  {
    if a.GoalGate? { GateReads(th.body.order, c.goal, a.answerValid); }
  }

  lemma ActPends(q: Core, c: Ctx, th: Thread, a: ThreadAct)
    requires CanAct(q, c, th, a) && th.body.Readable? && (a.ClaimA? || a.GateA? || a.SendA?)
    requires !(a.ClaimA? && a.c.Read?)
    requires a.SendA? ==> !a.d.RecordOutcome? && !a.d.WorkerDies?
    ensures var m := ActStep(q, c, th, a);
            m.th.Some? && Pends(m.th.value.pc) == LeftWith(c.goal, c.life, q.proof, th, a)
  {
    match a
    case ClaimA(b) => if b.PreGate? { GateReads(th.body.order, c.goal, b.answerValid); }
    case GateA(b) => GatePends(q, c, th, b);
    case _ =>
  }

  /** Over every step of every run: a checking or sending step leaves an order put off, already settled or to the ledger
      exactly when what it reads says so. */
  lemma AttemptsPendAsJudged(s: State, x: string, t: nat, a: ThreadAct)
    requires CanStep(s, On(x, ByThread(t, a))) && x in s.entries && t in s.entries[x].threads
    requires s.entries[x].threads[t].body.Readable? && (a.ClaimA? || a.GateA? || a.SendA?) && !(a.ClaimA? && a.c.Read?)
    requires a.SendA? ==> !a.d.RecordOutcome? && !a.d.WorkerDies?
    ensures var th, after := s.entries[x].threads[t], DoStep(s, On(x, ByThread(t, a))).entries[x].threads;
            var lane := th.body.order.session;
            && t in after
            && Pends(after[t].pc) ==
               LeftWith(GoalOf(s, lane), if lane in s.lives then s.lives[lane] else NoRecord, ProofOf(s, x), th, a)
  {
    ActPends(s.entries[x].core, CtxOf(s, x, ByThread(t, a)), s.entries[x].threads[t], a);
  }

  lemma ReadEndsUnreadable(s: State, x: string, t: nat)
    requires CanStep(s, On(x, ByThread(t, ClaimA(Read)))) && x in s.entries && t in s.entries[x].threads
    ensures var body := s.entries[x].core.at.inFlight.value.body;
            ProofOf(DoStep(s, On(x, ByThread(t, ClaimA(Read)))), x).concluded ==
            if body.Garbage? then Some(Conclusion(Failed, Garbage)) else ProofOf(s, x).concluded
  {
  }

  // ---------------------------------------------------------------- walking one order through the queue

  /** The state with order `x` as given and everything else as in `base`. */
  function With(base: State, x: string, q: Core, threads: map<nat, Thread>): State {
    base.(entries := base.entries[x := Entry(q, threads)])
  }

  function Here(th: Option<Thread>): map<nat, Thread> { if th.Some? then map[0 := th.value] else map[] }

  /** What a thread on `body` reads from outside its entry. */
  function Around(base: State, body: Body): Ctx {
    var lane := SessionOf(body);
    Ctx(base.pid, base.phase, GoalOf(base, lane), if lane in base.lives then base.lives[lane] else NoRecord,
        LockFree(base, lane))
  }

  function LocksAfter(base: State, x: string, body: Body, a: ThreadAct): State {
    if a == GateA(Lock) then base.(locks := base.locks[SessionOf(body) := Holder(base.pid, x, 0)])
    else if a == GateA(Unlock) then base.(locks := base.locks - {SessionOf(body)})
    else base
  }

  /** The state does not care which of the two ways it is written. */
  lemma WithIs(base: State, x: string, q: Core, threads: map<nat, Thread>, act: Act, body: Body)
    requires LaneOf(Entry(q, threads), act) == SessionOf(body)
    ensures var s := With(base, x, q, threads);
            EntryOf(s, x) == Entry(q, threads) && CtxOf(s, x, act) == Around(base, body)
  {
  }

  lemma OnStep(s: State, x: string, act: Act, e: Entry, c: Ctx)
    requires EntryOf(s, x) == e && CtxOf(s, x, act) == c && Enabled(e, c, act) && !IsEnqueue(act)
    ensures CanStep(s, On(x, act))
    ensures DoStep(s, On(x, act)) == s.(entries := s.entries[x := Apply(e, c, act)], locks := NextLocks(s, x, act))
  {
  }

  lemma Stepped(base: State, x: string, q: Core, th: Thread, a: ThreadAct)
    requires CanAct(q, Around(base, th.body), th, a)
    ensures var s, p := With(base, x, q, map[0 := th]), On(x, ByThread(0, a));
            var m := ActStep(q, Around(base, th.body), th, a);
            CanStep(s, p) && DoStep(s, p) == With(LocksAfter(base, x, th.body, a), x, m.core, Here(m.th))
  {
    WithIs(base, x, q, map[0 := th], ByThread(0, a), th.body);
    OnStep(With(base, x, q, map[0 := th]), x, ByThread(0, a), Entry(q, map[0 := th]), Around(base, th.body));
    InstallHere(q, th, ActStep(q, Around(base, th.body), th, a));
  }

  lemma InstallHere(q: Core, th: Thread, m: Moved)
    ensures Install(Entry(q, map[0 := th]), 0, m) == Entry(m.core, Here(m.th))
  {
    assert (if m.th.Some? then map[0 := th][0 := m.th.value] else map[0 := th] - {0}) == Here(m.th);
  }

  lemma Walk(base: State, x: string, q: Core, th: Thread, a: ThreadAct)
    requires Reachable(With(base, x, q, map[0 := th])) && CanAct(q, Around(base, th.body), th, a)
    ensures var m := ActStep(q, Around(base, th.body), th, a);
            Reachable(With(LocksAfter(base, x, th.body, a), x, m.core, Here(m.th)))
  {
    Stepped(base, x, q, th, a);
    Reach(With(base, x, q, map[0 := th]), On(x, ByThread(0, a)));
  }

  lemma Started(base: State, x: string, q: Core, a: SpawnAct)
    requires CanSpawn(Entry(q, map[]), Around(base, Garbage), a)
    ensures var s, p := With(base, x, q, map[]), On(x, Start(0, a));
            var m := Spawn(q, Around(base, Garbage), a);
            CanStep(s, p) && DoStep(s, p) == With(base, x, m.core, Here(m.th))
  {
    WithIs(base, x, q, map[], Start(0, a), Garbage);
    assert map[][0 := Spawn(q, Around(base, Garbage), a).th.value] == Here(Spawn(q, Around(base, Garbage), a).th);
  }

  lemma WalkStart(base: State, x: string, q: Core, a: SpawnAct)
    requires Reachable(With(base, x, q, map[])) && CanSpawn(Entry(q, map[]), Around(base, Garbage), a)
    ensures var m := Spawn(q, Around(base, Garbage), a); Reachable(With(base, x, m.core, Here(m.th)))
  {
    Started(base, x, q, a);
    Reach(With(base, x, q, map[]), On(x, Start(0, a)));
  }

  lemma EnvStepped(base: State, x: string, q: Core, threads: map<nat, Thread>, a: EnvAct)
    requires CanEnv(Entry(q, threads), Around(base, Garbage), a) && !a.Enqueue?
    ensures var s, p := With(base, x, q, threads), On(x, Env(a));
            CanStep(s, p) && DoStep(s, p) == With(base, x, EnvStep(q, a), threads)
  {
    WithIs(base, x, q, threads, Env(a), Garbage);
  }

  lemma WalkEnv(base: State, x: string, q: Core, threads: map<nat, Thread>, a: EnvAct)
    requires Reachable(With(base, x, q, threads)) && CanEnv(Entry(q, threads), Around(base, Garbage), a) && !a.Enqueue?
    ensures Reachable(With(base, x, EnvStep(q, a), threads))
  {
    EnvStepped(base, x, q, threads, a);
    Reach(With(base, x, q, threads), On(x, Env(a)));
  }

  // ---------------------------------------------------------------- from the outcome to the directories

  /** The order rests in one place with nothing left over. */
  function Resting(at: Places): Places { Places(None, None, None, None, None, false, at.first, at.enqueues, at.cuts) }

  /** Claimed, in one place, without a result. */
  predicate InHand(q: Core, f: File) {
    q.at == Resting(q.at).(inFlight := Some(f)) && q.proof.result.None?
  }

  /** The order is in processed/ with this result, its nonce is cleared and its claim given up. */
  predicate SettledAs(q: Core, f: File, status: Status) {
    && q.at == Resting(q.at).(processed := Some(f))
    && q.proof.result == Some(Stored(status, f.body, status.Sent?)) && !q.proof.nonce
    && q.owner.None? && q.record.None?
  }

  /** The order waits in deferred/ without a result, with the nonce as it was and its claim given up. */
  predicate Waits(q: Core, f: File, nonce: bool) {
    q.at == Resting(q.at).(deferred := Some(f)) && q.proof.result.None? && q.proof.nonce == nonce && q.owner.None? &&
      q.record.None?
  }

  /** The order is still claimed in in_flight/, without a result and with the nonce as it was, for a later pass to
      take up. */
  predicate Remains(q: Core, f: File, nonce: bool) {
    InHand(q, f) && q.proof.nonce == nonce && q.owner.None? && q.record.None?
  }

  /** A claimer that delivered inline, or a drainer with a worker's record. */
  predicate Applies(q: Core, th: Thread) {
    th.role.Drainer? || (th.role.Claimer? && q.record.None?)
  }

  /** The thread is done with the directories: it consumes its record, if it drains one, and removes the owner marker.
      */
  lemma WalkHome(base: State, x: string, q: Core, th: Thread)
    requires Applies(q, th) && th.pc == Finished(th) && Reachable(With(base, x, q, map[0 := th]))
    ensures Reachable(With(base, x, q.(owner := None, record := None), map[]))
  {
    if th.role.Drainer? {
      Walk(base, x, q, th, SettleA(DropRecord));
      Walk(base, x, q.(record := None), th.(pc := AtUnmark), SettleA(Unmark));
    } else {
      Walk(base, x, q, th, SettleA(Unmark));
      assert q.(owner := None) == q.(owner := None, record := None);
    }
  }

  /** A finalized order: its nonce is cleared first. */
  lemma WalkCleared(base: State, x: string, q: Core, th: Thread)
    requires Applies(q, th) && th.pc == AtClearNonce && Reachable(With(base, x, q, map[0 := th]))
    ensures Reachable(With(base, x, q.(proof := q.proof.(nonce := false), owner := None, record := None), map[]))
  {
    Walk(base, x, q, th, SettleA(ClearNonce));
    WalkHome(base, x, q.(proof := q.proof.(nonce := false)), th.(pc := Finished(th)));
  }

  /** A stored result takes the order to processed/. */
  lemma WalkFinal(base: State, x: string, q: Core, th: Thread, f: File)
    requires Applies(q, th) && th.pc == AtFinalLink(Processed) && q.at == Resting(q.at).(inFlight := Some(f))
    requires Reachable(With(base, x, q, map[0 := th]))
    ensures Reachable(With(base, x, q.(at := Resting(q.at).(processed := Some(f)), proof := q.proof.(nonce := false),
                                       owner := None, record := None), map[]))
  {
    var linked := q.(at := q.at.(processed := Some(f)));
    var moved := q.(at := linked.at.(inFlight := None));
    Walk(base, x, q, th, MoveA(FinalLink));
    Walk(base, x, linked, th.(pc := AtFinalUnlink(Processed)), MoveA(FinalUnlink));
    assert moved.at == Resting(q.at).(processed := Some(f));
    WalkCleared(base, x, moved, th.(pc := AtClearNonce));
  }

  /** A deferral takes it to deferred/. */
  lemma WalkDefer(base: State, x: string, q: Core, th: Thread, f: File)
    requires Applies(q, th) && th.pc == AtDeferLink && InHand(q, f) && Reachable(With(base, x, q, map[0 := th]))
    ensures Reachable(With(base, x, q.(at := Resting(q.at).(deferred := Some(f)), owner := None, record := None),
                           map[]))
  {
    var linked := q.(at := q.at.(deferred := Some(f)));
    var moved := q.(at := linked.at.(inFlight := None));
    Walk(base, x, q, th, MoveA(DeferLink));
    Walk(base, x, linked, th.(pc := AtDeferUnlink), MoveA(DeferUnlink));
    assert moved.at == Resting(q.at).(deferred := Some(f));
    WalkHome(base, x, moved, th.(pc := Finished(th)));
  }

  ghost predicate Reaches(base: State, x: string, f: File, fate: Outcome, nonce: bool) {
    exists q :: Reachable(With(base, x, q, map[])) &&
                if fate.ResultOf? && !fate.status.Unconfirmed? then SettledAs(q, f, fate.status)
                else if fate.LedgerPending? then Remains(q, f, nonce)
                else Waits(q, f, nonce)
  }

  lemma WalkPublish(base: State, x: string, q: Core, th: Thread, f: File, status: Status)
    requires Applies(q, th) && th.pc == AtCreate(status, Processed) && th.body == f.body && InHand(q, f)
    requires !status.Unconfirmed? && Reachable(With(base, x, q, map[0 := th]))
    ensures Reaches(base, x, f, ResultOf(status), q.proof.nonce)
  {
    var stored := q.(proof := Store(q.proof, status, f.body));
    Walk(base, x, q, th, SettleA(Create));
    WalkFinal(base, x, stored, th.(pc := AtFinalLink(Processed)), f);
    var last := stored.(at := Resting(q.at).(processed := Some(f)), proof := stored.proof.(nonce := false),
                        owner := None, record := None);
    assert Reachable(With(base, x, last, map[])) && SettledAs(last, f, status);
  }

  lemma WalkSent(base: State, x: string, q: Core, th: Thread, f: File)
    requires Applies(q, th) && th.pc == AtVerify && th.body == f.body && InHand(q, f) && f.body.Readable?
    requires (f.body.order.session, f.body.order.nudge) in q.proof.rows && Reachable(With(base, x, q, map[0 := th]))
    ensures Reaches(base, x, f, ResultOf(Sent), q.proof.nonce)
  {
    var stored := q.(proof := Store(q.proof, Sent, f.body));
    Walk(base, x, q, th, SettleA(Verify));
    Walk(base, x, q, th.(pc := AtPublish), SettleA(Publish));
    Walk(base, x, stored, th.(pc := AtCreate(Sent, Processed)), SettleA(Create));
    WalkFinal(base, x, stored, th.(pc := AtFinalLink(Processed)), f);
    var last := stored.(at := Resting(q.at).(processed := Some(f)), proof := stored.proof.(nonce := false),
                        owner := None, record := None);
    assert Reachable(With(base, x, last, map[])) && SettledAs(last, f, Sent);
  }

  /** From every reachable state in which an attempt's outcome is about to be applied, inline or on the drain: a
      status other than Unconfirmed can be stored and the order finalized with it, Sent only on its ledger row; a
      deferral or an unconfirmed delivery can be put off without a result and without losing the nonce; and a delivery
      whose row could not be signed stays claimed, without a result and with its nonce. */
  lemma OutcomesAreSettled(base: State, x: string, q: Core, th: Thread, f: File, out: Outcome)
    requires Applies(q, th) && th.pc == Decided(out) && th.body == f.body && InHand(q, f) && f.body.Readable?
    requires !out.ExistingResult?
    requires out == ResultOf(Sent) ==> (f.body.order.session, f.body.order.nudge) in q.proof.rows
    requires Reachable(With(base, x, q, map[0 := th]))
    ensures Reaches(base, x, f, out, q.proof.nonce)
  {
    Walk(base, x, q, th, SettleA(Decide));
    if out.LedgerPending? {
      WalkHome(base, x, q, th.(pc := Finished(th)));
      assert Reachable(With(base, x, q.(owner := None, record := None), map[]));
    } else if out == ResultOf(Sent) {
      WalkSent(base, x, q, th.(pc := AtVerify), f);
    } else if out.ResultOf? && !out.status.Unconfirmed? {
      WalkPublish(base, x, q, th.(pc := AtCreate(out.status, Processed)), f, out.status);
    } else {
      WalkDefer(base, x, q, th.(pc := AtDeferLink), f);
      var last := q.(at := Resting(q.at).(deferred := Some(f)), owner := None, record := None);
      assert Reachable(With(base, x, last, map[])) && Waits(last, f, q.proof.nonce);
    }
  }

  // ---------------------------------------------------------------- from orders/ through the gates

  /** Waiting in orders/, unclaimed and unresolved; a nonce may stand from an attempt that died. */
  predicate Pending(q: Core, f: File) {
    q.at == Resting(q.at).(orders := Some(f)) && q.owner.None? && q.record.None? && q.proof.result.None?
  }

  function Claimed(q: Core, pid: nat, f: File): Core {
    q.(at := Resting(q.at).(inFlight := Some(f)), owner := Some(pid))
  }

  /** An idle dispatcher at work, and nobody on the order's lane. */
  predicate AtWork(base: State, f: File) {
    base.phase.Work? && f.body.Readable? && f.body.order.session !in base.locks
  }

  lemma WalkClaim(base: State, x: string, q: Core, f: File)
    requires Pending(q, f) && base.phase.Work? && f.body.Readable? && Reachable(With(base, x, q, map[]))
    ensures Reachable(With(base, x, Claimed(q, base.pid, f), map[0 := Thread(Claimer, f.body, NoRecord, AtPreGate)]))
  {
    var th := Thread(Claimer, Garbage, NoRecord, AtClaim);
    var marked := q.(owner := Some(base.pid));
    WalkStart(base, x, q, Reserve);
    Walk(base, x, marked, th, ClaimA(Claim));
    assert marked.at.(inFlight := marked.at.orders, orders := None) == Claimed(q, base.pid, f).at;
    Walk(base, x, Claimed(q, base.pid, f), th.(pc := AtRead), ClaimA(Read));
    Walk(base, x, Claimed(q, base.pid, f), th.(body := f.body, pc := AtPreResult), ClaimA(PreResult));
  }

  function Locked(base: State, x: string, lane: string): State {
    base.(locks := base.locks[lane := Holder(base.pid, x, 0)])
  }

  /** Past the gates under the lane lock, with the lifecycle value read there. */
  lemma WalkUnlock(base: State, x: string, q: Core, th: Thread, out: Outcome)
    requires th.pc == AtUnlock(out) && out != ResultOf(Sent) && SessionOf(th.body) !in base.locks
    requires Reachable(With(Locked(base, x, SessionOf(th.body)), x, q, map[0 := th]))
    ensures Reachable(With(base, x, q, map[0 := th.(pc := Decided(out))]))
  {
    var locked := Locked(base, x, SessionOf(th.body));
    Walk(locked, x, q, th, GateA(Unlock));
    assert LocksAfter(locked, x, th.body, GateA(Unlock)) == base;
  }

  /** The goal gate before the lock. */
  lemma WalkPreGate(base: State, x: string, q: Core, f: File, answerValid: bool)
    requires AtWork(base, f) && InHand(q, f) && q.record.None?
    requires Reachable(With(base, x, q, map[0 := Thread(Claimer, f.body, NoRecord, AtPreGate)]))
    ensures var verdict := GoalVerdict(f.body.order, GoalOf(base, f.body.order.session), answerValid);
            if verdict == Some(Refused) then Reaches(base, x, f, ResultOf(Blocked), q.proof.nonce)
            else if verdict == Some(Postponed) then Reaches(base, x, f, Defer, q.proof.nonce)
            else Reachable(With(base, x, q, map[0 := Thread(Claimer, f.body, NoRecord, AtLock)]))
  {
    var o, th := f.body.order, Thread(Claimer, f.body, NoRecord, AtPreGate);
    var goal := GoalOf(base, o.session);
    GateReads(o, goal, answerValid);
    Walk(base, x, q, th, ClaimA(PreGate(answerValid, None, false)));
    var verdict := GoalVerdict(o, goal, answerValid);
    if verdict == Some(Refused) {
      var refused := q.(proof := Conclude(q.proof, Blocked, f.body));
      WalkPublish(base, x, refused, th.(pc := AtCreate(Blocked, Processed)), f, Blocked);
    } else if verdict == Some(Postponed) {
      WalkDefer(base, x, q, th.(pc := AtDeferLink), f);
      var last := q.(at := Resting(q.at).(deferred := Some(f)), owner := None, record := None);
      assert Reachable(With(base, x, last, map[])) && Waits(last, f, q.proof.nonce);
    }
  }

  lemma WalkLock(base: State, x: string, q: Core, f: File)
    requires AtWork(base, f) && InHand(q, f)
    requires Reachable(With(base, x, q, map[0 := Thread(Claimer, f.body, NoRecord, AtLock)]))
    ensures Reachable(With(Locked(base, x, f.body.order.session), x, q,
                           map[0 := Thread(Claimer, f.body, NoRecord, AtGoal)]))
  {
    var th := Thread(Claimer, f.body, NoRecord, AtLock);
    Walk(base, x, q, th, GateA(Lock));
    Walk(Locked(base, x, f.body.order.session), x, q, th.(pc := AtRecheck), GateA(Recheck));
  }

  /** The same gate again under the lock, where its answer is the same. */
  lemma WalkGoalGate(base: State, x: string, q: Core, f: File, answerValid: bool)
    requires AtWork(base, f) && InHand(q, f)
    requires GoalVerdict(f.body.order, GoalOf(base, f.body.order.session), answerValid).None?
    requires Reachable(With(base, x, q, map[0 := Thread(Claimer, f.body, NoRecord, AtLock)]))
    ensures Reachable(With(Locked(base, x, f.body.order.session), x, q,
                           map[0 := Thread(Claimer, f.body, NoRecord, AtLife)]))
  {
    GateReads(f.body.order, GoalOf(base, f.body.order.session), answerValid);
    WalkLock(base, x, q, f);
    Walk(Locked(base, x, f.body.order.session), x, q, Thread(Claimer, f.body, NoRecord, AtGoal),
         GateA(GoalGate(answerValid)));
  }

  function LifeAt(base: State, lane: string): Life { if lane in base.lives then base.lives[lane] else NoRecord }

  /** The lifecycle gate on its own. */
  lemma LifeStep(q: Core, c: Ctx, th: Thread)
    requires th.pc.AtLife? && th.body.Readable?
    ensures var verdict, next := LifeVerdict(th.body.order, c.life), th.(life := c.life);
            GateStep(q, c, th, LifeGate) ==
            if verdict == Some(Refused)
            then Moved(q.(proof := Conclude(q.proof, Blocked, th.body)), Some(next.(pc := AtUnlock(ResultOf(Blocked)))))
            else if verdict == Some(Postponed) then Moved(q, Some(next.(pc := AtUnlock(Defer))))
            else Moved(q, Some(next.(pc := AtOwner)))
  {
  }

  /** What the lifecycle gate leaves. */
  lemma WalkLife(base: State, x: string, q: Core, f: File)
    requires AtWork(base, f) && InHand(q, f)
    requires Reachable(With(Locked(base, x, f.body.order.session), x, q,
                            map[0 := Thread(Claimer, f.body, NoRecord, AtLife)]))
    ensures var locked, life := Locked(base, x, f.body.order.session), LifeAt(base, f.body.order.session);
            var verdict, th := LifeVerdict(f.body.order, life), Thread(Claimer, f.body, life, AtOwner);
            var refused := q.(proof := Conclude(q.proof, Blocked, f.body));
            if verdict == Some(Refused)
            then Reachable(With(locked, x, refused, map[0 := th.(pc := AtUnlock(ResultOf(Blocked)))]))
            else if verdict == Some(Postponed) then Reachable(With(locked, x, q, map[0 := th.(pc := AtUnlock(Defer))]))
            else Reachable(With(locked, x, q, map[0 := th]))
  {
    LifeStep(q, Around(Locked(base, x, f.body.order.session), f.body), Thread(Claimer, f.body, NoRecord, AtLife));
    Walk(Locked(base, x, f.body.order.session), x, q, Thread(Claimer, f.body, NoRecord, AtLife), GateA(LifeGate));
  }

  lemma WalkLifeGate(base: State, x: string, q: Core, f: File)
    requires AtWork(base, f) && InHand(q, f) && q.record.None?
    requires Reachable(With(Locked(base, x, f.body.order.session), x, q,
                            map[0 := Thread(Claimer, f.body, NoRecord, AtLife)]))
    ensures var lane := f.body.order.session;
            var verdict := LifeVerdict(f.body.order, LifeAt(base, lane));
            if verdict == Some(Refused) then Reaches(base, x, f, ResultOf(Blocked), q.proof.nonce)
            else if verdict == Some(Postponed) then Reaches(base, x, f, Defer, q.proof.nonce)
            else Reachable(With(Locked(base, x, lane), x, q,
                                map[0 := Thread(Claimer, f.body, LifeAt(base, lane), AtHold)]))
  {
    var life := LifeAt(base, f.body.order.session);
    var verdict, th := LifeVerdict(f.body.order, life), Thread(Claimer, f.body, life, AtOwner);
    WalkLife(base, x, q, f);
    if verdict == Some(Refused) {
      LifeRefuses(base, x, q, f, th);
    } else if verdict == Some(Postponed) {
      UnlockAndDefer(base, x, q, f, th);
    } else {
      Walk(Locked(base, x, f.body.order.session), x, q, th, GateA(OwnerGate(false)));
    }
  }

  lemma LifeRefuses(base: State, x: string, q: Core, f: File, th: Thread)
    requires AtWork(base, f) && InHand(q, f) && q.record.None? && th.body == f.body && th.role.Claimer?
    requires Reachable(With(Locked(base, x, f.body.order.session), x, q.(proof := Conclude(q.proof, Blocked, f.body)),
                            map[0 := th.(pc := AtUnlock(ResultOf(Blocked)))]))
    ensures Reaches(base, x, f, ResultOf(Blocked), q.proof.nonce)
  {
    var refused := q.(proof := Conclude(q.proof, Blocked, f.body));
    WalkUnlock(base, x, refused, th.(pc := AtUnlock(ResultOf(Blocked))), ResultOf(Blocked));
    OutcomesAreSettled(base, x, refused, th.(pc := Decided(ResultOf(Blocked))), f, ResultOf(Blocked));
  }

  lemma UnlockAndDefer(base: State, x: string, q: Core, f: File, th: Thread)
    requires AtWork(base, f) && InHand(q, f) && q.record.None? && th.body == f.body && th.role.Claimer?
    requires Reachable(With(Locked(base, x, f.body.order.session), x, q, map[0 := th.(pc := AtUnlock(Defer))]))
    ensures Reaches(base, x, f, Defer, q.proof.nonce)
  {
    WalkUnlock(base, x, q, th.(pc := AtUnlock(Defer)), Defer);
    OutcomesAreSettled(base, x, q, th.(pc := Decided(Defer)), f, Defer);
  }

  lemma WalkHoldGate(base: State, x: string, q: Core, f: File, life: Life)
    requires AtWork(base, f) && InHand(q, f) && q.record.None?
    requires Reachable(With(Locked(base, x, f.body.order.session), x, q,
                            map[0 := Thread(Claimer, f.body, life, AtHold)]))
    ensures if HoldPostpones(f.body.order, GoalOf(base, f.body.order.session))
            then Reaches(base, x, f, Defer, q.proof.nonce)
            else Reachable(With(Locked(base, x, f.body.order.session), x, q,
                                map[0 := Thread(Claimer, f.body, life, AtNonce)]))
  {
    var locked, th := Locked(base, x, f.body.order.session), Thread(Claimer, f.body, life, AtHold);
    Walk(locked, x, q, th, GateA(HoldGate));
    if HoldPostpones(f.body.order, GoalOf(base, f.body.order.session)) {
      UnlockAndDefer(base, x, q, f, th);
    }
  }

  /** The proof of a delivery that was confirmed: pasted now under a fresh nonce, or found delivered under a standing
      one. */
  function Confirmation(p: Proof, body: Body): Proof
    requires body.Readable?
  {
    var sent := if p.nonce then p else Log(Log(p, Minted), Pasted(body.order)).(nonce := true);
    Conclude(Log(sent, Confirmed(body.order)), Sent, body)
  }

  lemma WalkSend(base: State, x: string, q: Core, f: File, life: Life)
    requires AtWork(base, f)
    requires Reachable(With(Locked(base, x, f.body.order.session), x, q,
                            map[0 := Thread(Claimer, f.body, life, AtNonce)]))
    ensures Reachable(With(Locked(base, x, f.body.order.session), x, q.(proof := Confirmation(q.proof, f.body)),
                           map[0 := Thread(Claimer, f.body, life, AtUnlock(ResultOf(Sent)))]))
  {
    var locked, th := Locked(base, x, f.body.order.session), Thread(Claimer, f.body, life, AtNonce);
    if q.proof.nonce {
      Walk(locked, x, q, th, SendA(NonceGate(true, false)));
    } else {
      var minted := q.(proof := Log(q.proof, Minted).(nonce := true));
      Walk(locked, x, q, th, SendA(NonceGate(false, false)));
      Walk(locked, x, q, th.(pc := AtMint), SendA(Mint));
      Walk(locked, x, minted, th.(pc := AtSend), SendA(Send(true, Sent)));
      assert Conclude(Log(Log(minted.proof, Pasted(f.body.order)), Confirmed(f.body.order)), Sent, f.body) ==
             Confirmation(q.proof, f.body);
    }
  }

  function SignedProof(p: Proof, o: Order): Proof {
    var row := (o.session, o.nudge);
    if row in p.rows then p else Log(p.(rows := p.rows + {row}), Signed(row.0, row.1))
  }

  lemma WalkSign(base: State, x: string, q: Core, f: File, life: Life)
    requires AtWork(base, f) && InHand(q, f) && q.record.None?
    requires Reachable(With(Locked(base, x, f.body.order.session), x, q,
                            map[0 := Thread(Claimer, f.body, life, AtUnlock(ResultOf(Sent)))]))
    ensures Reaches(base, x, f, ResultOf(Sent), q.proof.nonce)
  {
    var locked, th := Locked(base, x, f.body.order.session), Thread(Claimer, f.body, life, AtSign);
    Walk(locked, x, q, th.(pc := AtUnlock(ResultOf(Sent))), GateA(Unlock));
    assert LocksAfter(locked, x, th.body, GateA(Unlock)) == base;
    Walk(base, x, q, th, SendA(Sign(true)));
    var signed := q.(proof := SignedProof(q.proof, f.body.order));
    assert signed.proof == q.proof ==> signed == q;
    OutcomesAreSettled(base, x, signed, th.(pc := Decided(ResultOf(Sent))), f, ResultOf(Sent));
  }

  ghost predicate Meets(base: State, x: string, f: File, fate: Fate) {
    match fate
    case Delivered => exists nonce :: Reaches(base, x, f, ResultOf(Sent), nonce)
    case Refused => exists nonce :: Reaches(base, x, f, ResultOf(Blocked), nonce)
    case Postponed => exists nonce :: Reaches(base, x, f, Defer, nonce)
  }

  lemma PastTheGates(base: State, x: string, q: Core, f: File)
    requires AtWork(base, f) && InHand(q, f) && q.record.None?
    requires Reachable(With(Locked(base, x, f.body.order.session), x, q,
                            map[0 := Thread(Claimer, f.body, NoRecord, AtLife)]))
    ensures var o, lane := f.body.order, f.body.order.session;
            var verdict := LifeVerdict(o, LifeAt(base, lane));
            Meets(base, x, f, if verdict.Some? then verdict.value
                              else if HoldPostpones(o, GoalOf(base, lane)) then Postponed else Delivered)
  {
    var o, lane := f.body.order, f.body.order.session;
    WalkLifeGate(base, x, q, f);
    if LifeVerdict(o, LifeAt(base, lane)).None? {
      WalkHoldGate(base, x, q, f, LifeAt(base, lane));
      if !HoldPostpones(o, GoalOf(base, lane)) {
        WalkSend(base, x, q, f, LifeAt(base, lane));
        WalkSign(base, x, q.(proof := Confirmation(q.proof, f.body)), f, LifeAt(base, lane));
      }
    }
  }

  /** From every reachable state in which a readable order waits in orders/ and an idle dispatcher is at work, the order
      can meet the fate the stored goal, lifecycle and hold give it: delivered, it ends up in processed/ with its Sent
      result; refused, there with a Blocked one; postponed, in deferred/ without a result. */
  lemma EveryOrderMeetsItsFate(base: State, x: string, q: Core, f: File, answerValid: bool)
    requires AtWork(base, f) && Pending(q, f) && Reachable(With(base, x, q, map[]))
    ensures var o := f.body.order;
            Meets(base, x, f, FateOf(o, GoalOf(base, o.session), answerValid, LifeAt(base, o.session)))
  {
    var o, claimed := f.body.order, Claimed(q, base.pid, f);
    WalkClaim(base, x, q, f);
    WalkPreGate(base, x, claimed, f, answerValid);
    if GoalVerdict(o, GoalOf(base, o.session), answerValid).None? {
      WalkGoalGate(base, x, claimed, f, answerValid);
      PastTheGates(base, x, claimed, f);
    }
  }

  // ---------------------------------------------------------------- what comes back

  /** A deferred order can be requeued: it waits in orders/ again, with everything else as it was. */
  lemma PostponedComesBack(base: State, x: string, q: Core, f: File)
    requires q.at == Resting(q.at).(deferred := Some(f)) && Reachable(With(base, x, q, map[]))
    ensures Reachable(With(base, x, q.(at := Resting(q.at).(orders := Some(f))), map[]))
  {
    var linked := q.(at := q.at.(orders := Some(f), requeueing := true));
    WalkEnv(base, x, q, map[], RequeueLink);
    WalkEnv(base, x, linked, map[], RequeueUnlink);
    assert EnvStep(linked, RequeueUnlink).at == Resting(q.at).(orders := Some(f));
  }

  /** A claim whose process is gone is returned to orders/ by the next sweep. */
  lemma AbandonedClaimComesBack(base: State, x: string, q: Core, f: File)
    requires base.phase.Sweep? && q.owner != Some(base.pid) && q.at == Resting(q.at).(inFlight := Some(f))
    requires Reachable(With(base, x, q, map[]))
    ensures Reachable(With(base, x, q.(at := Resting(q.at).(orders := Some(f)), owner := None), map[]))
  {
    var th := Thread(Sweeper, Garbage, NoRecord, AtSweepUnlink);
    var linked := q.(at := q.at.(orders := Some(f)));
    var moved := q.(at := Resting(q.at).(orders := Some(f)));
    WalkStart(base, x, q, BeginSweep);
    Walk(base, x, linked, th, MoveA(SweepUnlink));
    assert linked.at.(inFlight := None) == moved.at;
    WalkUnmark(base, x, moved, th.(pc := AtUnmark));
  }

  lemma WalkUnmark(base: State, x: string, q: Core, th: Thread)
    requires th.pc == AtUnmark && Reachable(With(base, x, q, map[0 := th]))
    ensures Reachable(With(base, x, q.(owner := None), map[]))
  {
    Walk(base, x, q, th, SettleA(Unmark));
  }

  /** What a lost claim leaves behind can be cleared away: a record without its order on the drain, an owner marker of
      another process without its order on the sweep. */
  lemma LeftoversAreCleared(base: State, x: string, q: Core)
    requires q.at.inFlight.None? && Reachable(With(base, x, q, map[]))
    ensures base.phase.Drain? && q.record.Some? ==> Reachable(With(base, x, q.(record := None), map[]))
    ensures base.phase.Sweep? && q.owner.Some? && q.owner != Some(base.pid) ==>
              Reachable(With(base, x, q.(owner := None), map[]))
  {
    if base.phase.Drain? && q.record.Some? { WalkEnv(base, x, q, map[], DropStale); }
    if base.phase.Sweep? && q.owner.Some? && q.owner != Some(base.pid) { WalkEnv(base, x, q, map[], DropOrphan); }
  }

  /** In processed/ with the result it had, proven if it is Sent, and no paste since; its nonce and its claim are
      gone. */
  predicate FinishedWith(q: Core, f: File, was: Proof)
    requires was.result.Some?
  {
    && q.at == Resting(q.at).(processed := Some(f)) && q.proof.hist == was.hist && !q.proof.nonce && q.owner.None? &&
      q.record.None?
    && q.proof.result.Some? && q.proof.result.value.status == was.result.value.status &&
      q.proof.result.value.body == f.body
    && (was.result.value.status.Sent? ==> q.proof.result.value.proven)
  }

  /** An order whose result is already stored, when it is claimed again or when that is found under the lane lock, is
      finalized with that result and never delivered again, Sent only on its ledger row. */
  lemma StoredResultFinishes(base: State, x: string, q: Core, th: Thread, f: File)
    requires Applies(q, th) && th.body == f.body && f.body.Readable?
    requires th.pc == AtPreResult || th.pc == Decided(ExistingResult) || th.pc == AtRecover
    requires q.at == Resting(q.at).(inFlight := Some(f)) && q.proof.result.Some? && q.proof.result.value.body == f.body
    requires q.proof.result.value.status.Sent? ==> (f.body.order.session, f.body.order.nudge) in q.proof.rows
    requires Reachable(With(base, x, q, map[0 := th]))
    ensures exists last :: Reachable(With(base, x, last, map[])) && FinishedWith(last, f, q.proof)
  {
    var status := q.proof.result.value.status;
    if th.pc == AtPreResult { Walk(base, x, q, th, ClaimA(PreResult)); }
    if th.pc == Decided(ExistingResult) { Walk(base, x, q, th, SettleA(Decide)); }
    RecoveredFinishes(base, x, q, th.(pc := AtRecover), f);
  }

  lemma RecoveredFinishes(base: State, x: string, q: Core, th: Thread, f: File)
    requires Applies(q, th) && th.body == f.body && f.body.Readable? && th.pc == AtRecover
    requires q.at == Resting(q.at).(inFlight := Some(f)) && q.proof.result.Some? && q.proof.result.value.body == f.body
    requires q.proof.result.value.status.Sent? ==> (f.body.order.session, f.body.order.nudge) in q.proof.rows
    requires Reachable(With(base, x, q, map[0 := th]))
    ensures exists last :: Reachable(With(base, x, last, map[])) && FinishedWith(last, f, q.proof)
  {
    var proof := if q.proof.result.value.status.Sent?
                 then q.proof.(result := Some(q.proof.result.value.(proven := true))) else q.proof;
    var known := q.(proof := proof);
    RecoverStep(q, Around(base, th.body), th);
    Walk(base, x, q, th, SettleA(Recover(true, true)));
    WalkFinal(base, x, known, th.(pc := AtFinalLink(Processed)), f);
    var last := known.(at := Resting(q.at).(processed := Some(f)), proof := proof.(nonce := false), owner := None,
                       record := None);
    assert Reachable(With(base, x, last, map[])) && FinishedWith(last, f, q.proof);
  }

  /** Recovery on its own. */
  lemma RecoverStep(q: Core, c: Ctx, th: Thread)
    requires th.pc == AtRecover && th.body.Readable? && q.proof.result.Some? && q.proof.result.value.body == th.body
    requires q.proof.result.value.status.Sent? ==> (th.body.order.session, th.body.order.nudge) in q.proof.rows
    ensures var r := q.proof.result.value;
            var proof := if r.status.Sent? then q.proof.(result := Some(r.(proven := true))) else q.proof;
            ActStep(q, c, th, SettleA(Recover(true, true))) ==
              Moved(q.(proof := proof), Some(th.(pc := AtFinalLink(Processed))))
  {
  }

  lemma WalkInvalid(base: State, x: string, q: Core, th: Thread, f: File)
    requires th.role.Claimer? && q.record.None? && th.pc == AtFinalLink(Invalid)
    requires q.at == Resting(q.at).(inFlight := Some(f))
    requires Reachable(With(base, x, q, map[0 := th]))
    ensures Reachable(With(base, x, q.(at := Resting(q.at).(invalid := Some(f))), map[0 := th.(pc := AtClearNonce)]))
  {
    var linked := q.(at := q.at.(invalid := Some(f)));
    var moved := q.(at := linked.at.(inFlight := None));
    Walk(base, x, q, th, MoveA(FinalLink));
    Walk(base, x, linked, th.(pc := AtFinalUnlink(Invalid)), MoveA(FinalUnlink));
    assert moved.at == Resting(q.at).(invalid := Some(f));
  }

  lemma WalkGarbage(base: State, x: string, q: Core, f: File)
    requires Pending(q, f) && base.phase.Work? && f.body.Garbage? && Reachable(With(base, x, q, map[]))
    ensures var claimed := Claimed(q, base.pid, f);
            Reachable(With(base, x, claimed.(proof := Store(Conclude(q.proof, Failed, Garbage), Failed, Garbage)),
                           map[0 := Thread(Claimer, Garbage, NoRecord, AtFinalLink(Invalid))]))
  {
    var th := Thread(Claimer, Garbage, NoRecord, AtClaim);
    var marked, claimed := q.(owner := Some(base.pid)), Claimed(q, base.pid, f);
    WalkStart(base, x, q, Reserve);
    Walk(base, x, marked, th, ClaimA(Claim));
    assert marked.at.(inFlight := marked.at.orders, orders := None) == claimed.at;
    Walk(base, x, claimed, th.(pc := AtRead), ClaimA(Read));
    Walk(base, x, claimed.(proof := Conclude(q.proof, Failed, Garbage)), th.(pc := AtCreate(Failed, Invalid)),
         SettleA(Create));
  }

  /** An order that cannot be read can be set aside in invalid/ with a Failed result, its claim given up. */
  lemma UnreadableIsSetAside(base: State, x: string, q: Core, f: File)
    requires Pending(q, f) && base.phase.Work? && f.body.Garbage? && Reachable(With(base, x, q, map[]))
    ensures exists last :: Reachable(With(base, x, last, map[])) && last.at == Resting(q.at).(invalid := Some(f))
                           && last.proof.result == Some(Stored(Failed, Garbage, false)) && last.owner.None? &&
                             last.record.None?
  {
    var th := Thread(Claimer, Garbage, NoRecord, AtClearNonce);
    var failed := Claimed(q, base.pid, f).(proof := Store(Conclude(q.proof, Failed, Garbage), Failed, Garbage));
    WalkGarbage(base, x, q, f);
    WalkInvalid(base, x, failed, th.(pc := AtFinalLink(Invalid)), f);
    var aside := failed.(at := Resting(q.at).(invalid := Some(f)));
    WalkCleared(base, x, aside, th);
    var last := aside.(proof := aside.proof.(nonce := false), owner := None, record := None);
    assert Reachable(With(base, x, last, map[])) && last.proof.result == failed.proof.result;
  }

  // ---------------------------------------------------------------- a worker's outcome reaches the drain

  predicate OthersIdle(base: State, x: string) {
    forall y :: y in base.entries && y != x ==> MainIdle(base.entries[y])
  }

  lemma WalkPhase(base: State, x: string, q: Core)
    requires OthersIdle(base, x) && !base.phase.Drain? && Reachable(With(base, x, q, map[]))
    ensures Reachable(With(base.(phase := if base.phase.Work? then Sweep else Drain), x, q, map[]))
  {
    var s := With(base, x, q, map[]);
    Reach(s, NextPhase);
    assert DoStep(s, NextPhase) == With(base.(phase := if base.phase.Work? then Sweep else Drain), x, q, map[]);
  }

  /** An outcome a worker recorded is applied by the next drain exactly as an inline one: the order is settled or put
      off. */
  lemma WorkersOutcomesAreSettled(base: State, x: string, q: Core, th: Thread, f: File, out: Outcome)
    requires th.role.Worker? && th.pc == Decided(out) && th.body == f.body && InHand(q, f) && f.body.Readable?
    requires base.phase.Work? && OthersIdle(base, x) && (out.ResultOf? || out.Defer?)
    requires out == ResultOf(Sent) ==> (f.body.order.session, f.body.order.nudge) in q.proof.rows
    requires Reachable(With(base, x, q, map[0 := th]))
    ensures Reaches(base.(phase := Drain), x, f, out, q.proof.nonce)
  {
    var recorded := q.(record := Some(out));
    Walk(base, x, q, th, SendA(RecordOutcome));
    WalkPhase(base, x, recorded);
    WalkPhase(base.(phase := Sweep), x, recorded);
    assert base.(phase := Sweep).(phase := Drain) == base.(phase := Drain);
    WalkStart(base.(phase := Drain), x, recorded, BeginDrain);
    OutcomesAreSettled(base.(phase := Drain), x, recorded, Thread(Drainer, f.body, NoRecord, Decided(out)), f, out);
  }

  // ---------------------------------------------------------------- every order, goal and lifecycle

  function Stage(phase: Phase, inode: nat, o: Order, goal: Option<Goal>, life: Life): State {
    State(1, phase, map[], inode, if goal.Some? then map[o.session := goal.value] else map[], map[o.session := life],
          map[])
  }

  function Arrived(body: Body): Core {
    Core(Places(Some(File(0, body)), None, None, None, None, false, 0, 1, 0), None, None, FreshCore.proof)
  }

  lemma ReachStage(o: Order, goal: Option<Goal>, life: Life)
    ensures Reachable(Stage(Sweep, 0, o, goal, life))
  {
    ReachInit();
    var s := Init;
    if goal.Some? {
      Reach(s, WriteGoal(o.session, goal));
      s := DoStep(s, WriteGoal(o.session, goal));
    }
    Reach(s, WriteLife(o.session, life));
    assert DoStep(s, WriteLife(o.session, life)) == Stage(Sweep, 0, o, goal, life);
  }

  lemma ReachArrived(o: Order, goal: Option<Goal>, life: Life, x: string)
    ensures Reachable(With(Stage(Work, 1, o, goal, life), x, Arrived(Readable(o)), map[]))
  {
    var s, p := Stage(Sweep, 0, o, goal, life), On(x, Env(Enqueue(Readable(o), 0)));
    ReachStage(o, goal, life);
    Reach(s, p);
    assert DoStep(s, p) == With(Stage(Sweep, 1, o, goal, life), x, Arrived(Readable(o)), map[]);
    WalkPhase(Stage(Sweep, 1, o, goal, life), x, Arrived(Readable(o)));
    ReachWork(o, goal, life, x);
  }

  lemma ReachWork(o: Order, goal: Option<Goal>, life: Life, x: string)
    requires Reachable(With(Stage(Drain, 1, o, goal, life), x, Arrived(Readable(o)), map[]))
    ensures Reachable(With(Stage(Work, 1, o, goal, life), x, Arrived(Readable(o)), map[]))
  {
    var drain := With(Stage(Drain, 1, o, goal, life), x, Arrived(Readable(o)), map[]);
    Reach(drain, NextPhase);
    assert DoStep(drain, NextPhase) == With(Stage(Work, 1, o, goal, life), x, Arrived(Readable(o)), map[]);
  }

  /** For every readable order and whatever the goal store and the lifecycle say of its lane, the order can arrive and
      meet its fate: the ones that the gates admit are delivered and recorded as Sent. */
  lemma EveryFateIsMet(o: Order, goal: Option<Goal>, life: Life, answerValid: bool, x: string)
    ensures exists base :: GoalOf(base, o.session) == goal && LifeAt(base, o.session) == life
                           && Meets(base, x, File(0, Readable(o)), FateOf(o, goal, answerValid, life))
  {
    var base := Stage(Work, 1, o, goal, life);
    ReachArrived(o, goal, life, x);
    EveryOrderMeetsItsFate(base, x, Arrived(Readable(o)), File(0, Readable(o)), answerValid);
    assert GoalOf(base, o.session) == goal && LifeAt(base, o.session) == life;
  }
}
