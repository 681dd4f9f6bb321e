/** What every step of the dispatch queue keeps, and what follows for whole runs. */
module DispatchSafety {
  import opened Basics
  import opened DispatchQueue

  // ---------------------------------------------------------------- claims

  predicate DeliveryPc(pc: Pc) {
    pc.AtLock? || UnderLock(pc) || pc.AtSign? || pc.Decided?
  }

  predicate NeedsOrder(pc: Pc) {
    DeliveryPc(pc) || pc.AtPreResult? || pc.AtPreGate? || pc.AtVerify? || pc.AtPublish? || pc.AtRecover?
  }

  predicate DrainPc(pc: Pc) {
    || pc.Decided? || pc.AtVerify? || pc.AtPublish? || pc.AtCreate? || pc.AtFinalLink? || pc.AtFinalUnlink?
    || pc.AtClearNonce? || pc.AtRecover? || pc.AtDeferLink? || pc.AtDeferUnlink? || pc.AtDropRecord? || pc.AtUnmark?
  }

  /** What a working thread knows about the claim: nobody else may take it. */
  predicate ClaimOk(q: Core, th: Thread, pid: nat, phase: Phase) {
    && (NeedsOrder(th.pc) ==> th.body.Readable?)
    && match th.role
       case Claimer => q.owner == Some(pid) && q.record.None? && !th.pc.AtSweepUnlink? && !th.pc.AtDropRecord?
       case Worker => q.owner == Some(pid) && q.record.None? && DeliveryPc(th.pc)
       case Drainer => phase.Drain? && DrainPc(th.pc) && (q.record.Some? || th.pc.AtUnmark?)
       case Sweeper =>
         && (th.pc.AtSweepUnlink? || th.pc.AtUnmark?)
         && (if phase.Sweep? then q.owner != Some(pid) else phase.Drain? && q.owner == Some(pid) && q.record.None?)
  }

  // ---------------------------------------------------------------- history

  /** Why an event may follow the events of `past`: a send nonce is minted once,
      a paste follows it and is never repeated, a delivery is signed only after
      it was confirmed, and a result is published once, for Sent only after the
      ledger row of that very order. */
  ghost predicate Justified(past: seq<Event>, v: Event) {
    match v
    case Minted => Minted !in past
    case Pasted(_) => Minted in past && forall o :: Pasted(o) !in past
    case Confirmed(_) => Minted in past
    case Signed(session, nudge) => exists o :: Confirmed(o) in past && o.session == session && o.nudge == nudge
    case Published(status, body) =>
      && (forall st, b :: Published(st, b) !in past)
      && (status.Sent? ==> body.Readable? && Signed(body.order.session, body.order.nudge) in past)
  }

  ghost predicate WellOrdered(h: seq<Event>) {
    forall i :: 0 <= i < |h| ==> Justified(h[..i], h[i])
  }

  lemma WellOrderedAppend(h: seq<Event>, v: Event)
    requires WellOrdered(h) && Justified(h, v)
    ensures WellOrdered(h + [v])
  {
    var g := h + [v];
    forall i | 0 <= i < |g| ensures Justified(g[..i], g[i]) {
      assert g[..i] == if i < |h| then h[..i] else h;
    }
  }

  lemma PasteNeedsMint(h: seq<Event>)
    requires WellOrdered(h) && Minted !in h
    ensures forall o :: Pasted(o) !in h
  {
    forall i | 0 <= i < |h| ensures !h[i].Pasted? {
      assert Justified(h[..i], h[i]);
    }
  }

  ghost predicate HistoryOk(p: Proof) {
    && WellOrdered(p.hist)
    && (p.nonce ==> Minted in p.hist)
    && (Minted in p.hist ==> p.nonce || p.result.Some?)
    && (forall r :: r in p.rows ==> Signed(r.0, r.1) in p.hist)
    && (p.result.Some? ==> Published(p.result.value.status, p.result.value.body) in p.hist)
    && (p.result.None? ==> forall st, b :: Published(st, b) !in p.hist)
  }

  /** What each program point knows about nonce, result and ledger. */
  ghost predicate PointOk(p: Proof, th: Thread) {
    && (th.pc.AtGoal? || th.pc.AtLife? || th.pc.AtOwner? || th.pc.AtHold? || th.pc.AtNonce? || th.pc.AtMint? ||
        th.pc.AtSend?
        ==> p.result.None?)
    && (th.pc.AtMint? ==> !p.nonce)
    && (th.pc.AtSend? ==> p.nonce && forall o :: Pasted(o) !in p.hist)
    && (th.pc == AtUnlock(ResultOf(Sent)) || th.pc.AtSign? ==> th.body.Readable? && Confirmed(th.body.order) in p.hist)
    && (th.pc == AtUnlock(ExistingResult) || th.pc == Decided(ExistingResult) ==> p.result.Some?)
    && (th.pc.AtPublish? ==> th.body.Readable? && (th.body.order.session, th.body.order.nudge) in p.rows)
    && (th.pc.AtCreate? && th.pc.status.Sent? ==> p.result.Some?)
    && (th.pc.AtRecover? || th.pc.AtFinalLink? || th.pc.AtFinalUnlink? || th.pc.AtClearNonce? ==> p.result.Some?)
  }

  /** The status a thread is about to publish or hand over. */
  function Bound(pc: Pc): Option<Status> {
    match pc
    case AtUnlock(out) => if out.ResultOf? then Some(out.status) else None
    case Decided(out) => if out.ResultOf? then Some(out.status) else None
    case AtSign => Some(Sent)
    case AtVerify => Some(Sent)
    case AtPublish => Some(Sent)
    case AtCreate(status, _) => Some(status)
    case _ => None
  }

  /** Whatever a thread will publish is what the latest attempt ended with, for the order in hand, and that order is the
      claimed one; a record left for the drain is bound in the same way. */
  predicate OutcomeOk(q: Core, th: Option<Thread>) {
    && (q.record.Some? && q.record.value.ResultOf? && q.at.inFlight.Some? && q.proof.result.None? ==>
          q.proof.concluded == Some(Conclusion(q.record.value.status, q.at.inFlight.value.body)))
    && (th.Some? && NeedsOrder(th.value.pc) ==> q.at.inFlight.Some? && q.at.inFlight.value.body == th.value.body)
    && (th.Some? && Bound(th.value.pc).Some? && q.proof.result.None? ==>
          q.proof.concluded == Some(Conclusion(Bound(th.value.pc).value, th.value.body)))
  }

  // ---------------------------------------------------------------- places

  function One(f: Option<File>): nat {
    if f.Some? then 1 else 0
  }

  function PlaceCount(at: Places): nat {
    One(at.orders) + One(at.inFlight) + One(at.deferred) + One(at.processed) + One(at.invalid)
  }

  predicate LinkTo(f: Option<File>, inode: nat) {
    f.Some? ==> f.value.inode == inode
  }

  /** All links of the order lead to the one inode first enqueued. */
  predicate OneInode(at: Places) {
    && LinkTo(at.orders, at.first) && LinkTo(at.inFlight, at.first) && LinkTo(at.deferred, at.first)
    && LinkTo(at.processed, at.first) && LinkTo(at.invalid, at.first)
  }

  predicate PlacesOk(at: Places, resolved: bool) {
    && (PlaceCount(at) > 0 <==> at.enqueues > 0)
    && (at.processed.Some? || at.invalid.Some? ==> resolved)
    && (at.requeueing ==> at.deferred.Some? && PlaceCount(at) > 1)
    && (at.enqueues == 1 ==> OneInode(at))
  }

  /** The link half of a move is done: the copy it made is still there. */
  predicate MoveOk(at: Places, pc: Pc) {
    match pc
    case AtFinalUnlink(d) => DestFile(at, d).Some? && at.inFlight.Some?
    case AtDeferUnlink => at.inFlight.Some? && (at.requeueing || at.deferred.None? ==> at.orders.Some?)
    case AtSweepUnlink => at.orders.Some? && at.inFlight.Some?
    case _ => true
  }

  /** An order enqueued once, no move cut short: one place, plus one per move under way. */
  predicate Exact(at: Places, midMove: bool) {
    at.enqueues == 1 && at.cuts == 0 ==>
      PlaceCount(at) == 1 + (if at.requeueing then 1 else 0) + (if midMove then 1 else 0)
  }

  /** However often an order is enqueued and wherever a crash cut a move: at most one place for each enqueue, each cut
      and each move under way. */
  predicate Bounded(at: Places, midMove: bool) {
    PlaceCount(at) <= at.enqueues + at.cuts + (if at.requeueing then 1 else 0) + (if midMove then 1 else 0)
  }

  // ---------------------------------------------------------------- one action of one thread

  /** The claim stays with the thread that acts. */
  predicate ClaimAspect(m: Moved, pid: nat, phase: Phase) {
    && (phase.Work? ==> Drained(m.core, pid))
    && (m.th.Some? ==> ClaimOk(m.core, m.th.value, pid, phase))
  }

  ghost predicate PointAspect(m: Moved) {
    && HistoryOk(m.core.proof)
    && (m.core.record == Some(ExistingResult) ==> m.core.proof.result.Some?)
    && (m.th.Some? ==> PointOk(m.core.proof, m.th.value))
  }

  predicate PlaceAspect(m: Moved) {
    && PlacesOk(m.core.at, m.core.proof.result.Some?)
    && (m.th.Some? ==> MoveOk(m.core.at, m.th.value.pc))
    && Exact(m.core.at, m.th.Some? && MidMove(m.th.value.pc))
    && Bounded(m.core.at, m.th.Some? && MidMove(m.th.value.pc))
  }

  ghost predicate Keeps(m: Moved, pid: nat, phase: Phase) {
    ClaimAspect(m, pid, phase) && PointAspect(m) && PlaceAspect(m) && OutcomeOk(m.core, m.th)
  }

  lemma ClaimByClaim(q: Core, c: Ctx, th: Thread, a: ClaimAct)
    requires ClaimAspect(Moved(q, Some(th)), c.pid, c.phase) && CanClaim(q, th, a)
    ensures ClaimAspect(ClaimStep(q, c, th, a), c.pid, c.phase)
  {
  }

  lemma PointByClaim(q: Core, c: Ctx, th: Thread, a: ClaimAct)
    requires PointAspect(Moved(q, Some(th))) && CanClaim(q, th, a)
    ensures PointAspect(ClaimStep(q, c, th, a))
  {
  }

  lemma PlaceByClaim(q: Core, c: Ctx, th: Thread, a: ClaimAct)
    requires PlaceAspect(Moved(q, Some(th))) && CanClaim(q, th, a)
    ensures PlaceAspect(ClaimStep(q, c, th, a))
  {
  }

  lemma ClaimByGate(q: Core, c: Ctx, th: Thread, a: GateAct)
    requires ClaimAspect(Moved(q, Some(th)), c.pid, c.phase) && CanGate(c, th, a)
    ensures ClaimAspect(GateStep(q, c, th, a), c.pid, c.phase)
  {
  }

  lemma PointByGate(q: Core, c: Ctx, th: Thread, a: GateAct)
    requires PointAspect(Moved(q, Some(th))) && CanGate(c, th, a)
    ensures PointAspect(GateStep(q, c, th, a))
  {
  }

  lemma PlaceByGate(q: Core, c: Ctx, th: Thread, a: GateAct)
    requires PlaceAspect(Moved(q, Some(th))) && CanGate(c, th, a)
    ensures PlaceAspect(GateStep(q, c, th, a))
  {
  }

  lemma ClaimBySend(q: Core, c: Ctx, th: Thread, a: SendAct)
    requires ClaimAspect(Moved(q, Some(th)), c.pid, c.phase) && CanSend(th, a)
    ensures ClaimAspect(SendStep(q, th, a), c.pid, c.phase)
  {
  }

  lemma HistoryBySend(q: Core, th: Thread, a: SendAct)
    requires HistoryOk(q.proof) && PointOk(q.proof, th) && CanSend(th, a)
    ensures HistoryOk(SendStep(q, th, a).core.proof)
  {
    var h, h' := q.proof.hist, SendStep(q, th, a).core.proof.hist;
    match a {
      case NonceGate(_, _) =>
        if h' != h { WellOrderedAppend(h, Confirmed(th.body.order)); }
      case Mint =>
        WellOrderedAppend(h, Minted);
      case Send(reached, status) =>
        if reached { WellOrderedAppend(h, Pasted(th.body.order)); }
        if status.Sent? { WellOrderedAppend(h + [Pasted(th.body.order)], Confirmed(th.body.order)); }
      case Sign(_) =>
        if h' != h { WellOrderedAppend(h, Signed(th.body.order.session, th.body.order.nudge)); }
      case _ =>
    }
  }

  lemma PointBySend(q: Core, th: Thread, a: SendAct)
    requires PointAspect(Moved(q, Some(th))) && CanSend(th, a)
    ensures PointAspect(SendStep(q, th, a))
  {
    HistoryBySend(q, th, a);
    if a.Mint? { PasteNeedsMint(q.proof.hist); }
  }

  lemma PlaceBySend(q: Core, c: Ctx, th: Thread, a: SendAct)
    requires PlaceAspect(Moved(q, Some(th))) && ClaimOk(q, th, c.pid, c.phase) && CanSend(th, a)
    ensures PlaceAspect(SendStep(q, th, a))
  {
  }

  lemma ClaimBySettle(q: Core, c: Ctx, th: Thread, a: SettleAct)
    requires ClaimAspect(Moved(q, Some(th)), c.pid, c.phase) && CanSettle(q, th, a)
    ensures ClaimAspect(SettleStep(q, th, a), c.pid, c.phase)
  {
  }

  lemma HistoryBySettle(q: Core, th: Thread, a: SettleAct)
    requires HistoryOk(q.proof) && PointOk(q.proof, th) && CanSettle(q, th, a)
    ensures HistoryOk(SettleStep(q, th, a).core.proof)
  {
    if a.Publish? { WellOrderedAppend(q.proof.hist, Published(Sent, th.body)); }
    if a.Create? && q.proof.result.None? { WellOrderedAppend(q.proof.hist, Published(th.pc.status, th.body)); }
  }

  lemma PointBySettle(q: Core, th: Thread, a: SettleAct)
    requires PointAspect(Moved(q, Some(th))) && CanSettle(q, th, a)
    ensures PointAspect(SettleStep(q, th, a))
  {
    HistoryBySettle(q, th, a);
  }

  lemma PlaceBySettle(q: Core, th: Thread, a: SettleAct)
    requires PlaceAspect(Moved(q, Some(th))) && CanSettle(q, th, a)
    ensures PlaceAspect(SettleStep(q, th, a))
  {
  }

  lemma ClaimByMove(q: Core, c: Ctx, th: Thread, a: MoveAct)
    requires ClaimAspect(Moved(q, Some(th)), c.pid, c.phase) && CanMove(q, th, a)
    ensures ClaimAspect(MoveStep(q, th, a), c.pid, c.phase)
  {
  }

  lemma PointByMove(q: Core, th: Thread, a: MoveAct)
    requires PointAspect(Moved(q, Some(th))) && CanMove(q, th, a)
    ensures PointAspect(MoveStep(q, th, a))
  {
  }

  lemma PlaceByMove(q: Core, th: Thread, a: MoveAct)
    requires PlaceAspect(Moved(q, Some(th))) && PointOk(q.proof, th) && CanMove(q, th, a)
    ensures PlaceAspect(MoveStep(q, th, a))
  {
  }

  lemma OutcomeByClaim(q: Core, c: Ctx, th: Thread, a: ClaimAct)
    requires OutcomeOk(q, Some(th)) && ClaimOk(q, th, c.pid, c.phase) && CanClaim(q, th, a)
    ensures OutcomeOk(ClaimStep(q, c, th, a).core, ClaimStep(q, c, th, a).th)
  {
  }

  lemma OutcomeByGate(q: Core, c: Ctx, th: Thread, a: GateAct)
    requires OutcomeOk(q, Some(th)) && ClaimOk(q, th, c.pid, c.phase) && CanGate(c, th, a)
    ensures OutcomeOk(GateStep(q, c, th, a).core, GateStep(q, c, th, a).th)
  {
  }

  lemma OutcomeBySend(q: Core, c: Ctx, th: Thread, a: SendAct)
    requires OutcomeOk(q, Some(th)) && ClaimOk(q, th, c.pid, c.phase) && CanSend(th, a)
    ensures OutcomeOk(SendStep(q, th, a).core, SendStep(q, th, a).th)
  {
  }

  lemma OutcomeBySettle(q: Core, c: Ctx, th: Thread, a: SettleAct)
    requires OutcomeOk(q, Some(th)) && ClaimOk(q, th, c.pid, c.phase) && CanSettle(q, th, a)
    ensures OutcomeOk(SettleStep(q, th, a).core, SettleStep(q, th, a).th)
  {
  }

  lemma OutcomeByMove(q: Core, c: Ctx, th: Thread, a: MoveAct)
    requires OutcomeOk(q, Some(th)) && ClaimOk(q, th, c.pid, c.phase) && CanMove(q, th, a)
    ensures OutcomeOk(MoveStep(q, th, a).core, MoveStep(q, th, a).th)
  {
  }

  lemma KeptByThread(q: Core, c: Ctx, th: Thread, a: ThreadAct)
    requires Keeps(Moved(q, Some(th)), c.pid, c.phase) && CanAct(q, c, th, a)
    ensures Keeps(ActStep(q, c, th, a), c.pid, c.phase)
  {
    match a {
      case ClaimA(b) =>
        ClaimByClaim(q, c, th, b);
        PointByClaim(q, c, th, b);
        PlaceByClaim(q, c, th, b);
        OutcomeByClaim(q, c, th, b);
      case GateA(b) =>
        ClaimByGate(q, c, th, b);
        PointByGate(q, c, th, b);
        PlaceByGate(q, c, th, b);
        OutcomeByGate(q, c, th, b);
      case SendA(b) =>
        ClaimBySend(q, c, th, b);
        PointBySend(q, th, b);
        PlaceBySend(q, c, th, b);
        OutcomeBySend(q, c, th, b);
      case SettleA(b) =>
        ClaimBySettle(q, c, th, b);
        PointBySettle(q, th, b);
        PlaceBySettle(q, th, b);
        OutcomeBySettle(q, c, th, b);
      case MoveA(b) =>
        ClaimByMove(q, c, th, b);
        PointByMove(q, th, b);
        PlaceByMove(q, th, b);
        OutcomeByMove(q, c, th, b);
    }
  }

  // ---------------------------------------------------------------- the invariant of one order

  /** At most one thread works on an order, and it is consistent with the store. */
  ghost predicate EntryInv(e: Entry, pid: nat, phase: Phase) {
    && (forall t, u :: t in e.threads && u in e.threads ==> t == u)
    && (e.threads == map[] ==> Keeps(Moved(e.core, None), pid, phase))
    && (forall t :: t in e.threads ==> Keeps(Moved(e.core, Some(e.threads[t])), pid, phase))
  }

  lemma InstallKeeps(e: Entry, t: nat, m: Moved, pid: nat, phase: Phase)
    requires (forall u :: u in e.threads ==> u == t) && Keeps(m, pid, phase)
    ensures EntryInv(Install(e, t, m), pid, phase)
  {
    if m.th.Some? {
      assert t in Install(e, t, m).threads;
    } else {
      assert m == Moved(m.core, None);
    }
  }

  /** A claim, a drain or a sweep starts only when nobody works on the order. */
  lemma SpawnAlone(e: Entry, c: Ctx, a: SpawnAct)
    requires EntryInv(e, c.pid, c.phase) && CanSpawn(e, c, a)
    ensures e.threads == map[]
  {
    if e.threads != map[] {
      var t :| t in e.threads;
      ClaimBlocksSpawn(e, c, a, t);
    }
  }

  lemma ClaimBlocksSpawn(e: Entry, c: Ctx, a: SpawnAct, t: nat)
    requires t in e.threads && ClaimAspect(Moved(e.core, Some(e.threads[t])), c.pid, c.phase)
    ensures !CanSpawn(e, c, a)
  {
  }

  lemma SpawnKeeps(q: Core, c: Ctx, a: SpawnAct)
    requires Keeps(Moved(q, None), c.pid, c.phase) && CanSpawn(Entry(q, map[]), c, a)
    ensures Keeps(Spawn(q, c, a), c.pid, c.phase)
  {
    SpawnClaims(q, c, a);
    SpawnPlaces(q, c, a);
  }

  lemma SpawnClaims(q: Core, c: Ctx, a: SpawnAct)
    requires Keeps(Moved(q, None), c.pid, c.phase) && CanSpawn(Entry(q, map[]), c, a)
    ensures ClaimAspect(Spawn(q, c, a), c.pid, c.phase) && OutcomeOk(Spawn(q, c, a).core, Spawn(q, c, a).th)
  {
  }

  lemma SpawnPlaces(q: Core, c: Ctx, a: SpawnAct)
    requires Keeps(Moved(q, None), c.pid, c.phase) && CanSpawn(Entry(q, map[]), c, a)
    ensures PointAspect(Spawn(q, c, a)) && PlaceAspect(Spawn(q, c, a))
  {
  }

  /** A producer, a requeue sweep or a marker sweep keeps what the working thread relies on. */
  lemma EnvKeeps(e: Entry, c: Ctx, a: EnvAct, th: Option<Thread>)
    requires Keeps(Moved(e.core, th), c.pid, c.phase) && CanEnv(e, c, a)
    requires th.Some? ==> th.value in e.threads.Values
    ensures Keeps(Moved(EnvStep(e.core, a), th), c.pid, c.phase)
  {
    if th.Some? {
      var t :| t in e.threads && e.threads[t] == th.value;
      EnvClaim(e, c, a, t);
    }
    EnvPlace(e, c, a, th);
    EnvOutcome(e, c, a, th);
  }

  lemma EnvClaim(e: Entry, c: Ctx, a: EnvAct, t: nat)
    requires t in e.threads && ClaimOk(e.core, e.threads[t], c.pid, c.phase) && CanEnv(e, c, a)
    ensures ClaimOk(EnvStep(e.core, a), e.threads[t], c.pid, c.phase)
  {
  }

  lemma EnvOutcome(e: Entry, c: Ctx, a: EnvAct, th: Option<Thread>)
    requires OutcomeOk(e.core, th) && CanEnv(e, c, a)
    ensures OutcomeOk(EnvStep(e.core, a), th)
  {
  }

  lemma EnvPlace(e: Entry, c: Ctx, a: EnvAct, th: Option<Thread>)
    requires PlaceAspect(Moved(e.core, th)) && CanEnv(e, c, a)
    ensures PlaceAspect(Moved(EnvStep(e.core, a), th))
  {
  }

  lemma ActKeeps(e: Entry, c: Ctx, a: Act)
    requires EntryInv(e, c.pid, c.phase) && Enabled(e, c, a)
    ensures EntryInv(Apply(e, c, a), c.pid, c.phase)
  {
    match a {
      case ByThread(t, b) =>
        KeptByThread(e.core, c, e.threads[t], b);
        InstallKeeps(e, t, ActStep(e.core, c, e.threads[t], b), c.pid, c.phase);
      case Start(t, b) =>
        SpawnAlone(e, c, b);
        SpawnKeeps(e.core, c, b);
        InstallKeeps(e, t, Spawn(e.core, c, b), c.pid, c.phase);
      case Env(b) =>
        EnvKeepsEntry(e, c, b);
    }
  }

  lemma EnvKeepsEntry(e: Entry, c: Ctx, a: EnvAct)
    requires EntryInv(e, c.pid, c.phase) && CanEnv(e, c, a)
    ensures EntryInv(e.(core := EnvStep(e.core, a)), c.pid, c.phase)
  {
    if e.threads == map[] { EnvKeeps(e, c, a, None); }
    forall t | t in e.threads ensures Keeps(Moved(EnvStep(e.core, a), Some(e.threads[t])), c.pid, c.phase) {
      EnvKeeps(e, c, a, Some(e.threads[t]));
    }
  }

  lemma CrashKeeps(e: Entry, pid: nat, phase: Phase)
    requires EntryInv(e, pid, phase)
    ensures EntryInv(CrashEntry(e), pid + 1, Sweep)
  {
    if e.threads != map[] {
      var t :| t in e.threads;
      assert Keeps(Moved(e.core, Some(e.threads[t])), pid, phase);
    }
  }

  lemma PhaseKeeps(e: Entry, pid: nat, phase: Phase, next: Phase)
    requires EntryInv(e, pid, phase) && MainIdle(e) && (next.Work? ==> Drained(e.core, pid))
    ensures EntryInv(e, pid, next)
  {
    forall t | t in e.threads ensures Keeps(Moved(e.core, Some(e.threads[t])), pid, next) {
      assert Keeps(Moved(e.core, Some(e.threads[t])), pid, phase);
    }
  }

  // ---------------------------------------------------------------- the lane lock and the goal store

  predicate PastGoal(pc: Pc) {
    pc.AtLife? || pc.AtOwner? || pc.AtHold? || pc.AtNonce? || pc.AtMint? || pc.AtSend?
  }

  predicate PastLife(pc: Pc) {
    pc.AtOwner? || pc.AtHold? || pc.AtNonce? || pc.AtMint? || pc.AtSend?
  }

  predicate PastHold(pc: Pc) {
    pc.AtNonce? || pc.AtMint? || pc.AtSend?
  }

  /** What a thread under the lane lock has checked, against the goal as it is stored now. */
  predicate Checked(th: Thread, goal: Option<Goal>) {
    UnderLock(th.pc) ==>
      && th.body.Readable?
      && (PastGoal(th.pc) ==> ContractHolds(th.body.order, goal))
      && (PastLife(th.pc) ==> LifeAllows(th.body.order, th.life))
      && (PastHold(th.pc) ==> SealedBypass(th.body.order) || !GuardHeld(goal))
  }

  predicate Holds(s: State, x: string, t: nat, lane: string) {
    lane in s.locks && s.locks[lane] == Holder(s.pid, x, t)
  }

  /** A delivering thread holds its lane, and what it checked still holds. */
  predicate GateOk(s: State, x: string, t: nat, th: Thread) {
    && Checked(th, GoalOf(s, SessionOf(th.body)))
    && (UnderLock(th.pc) ==> Holds(s, x, t, SessionOf(th.body)))
  }

  ghost predicate Inv(s: State) {
    && (forall x :: x in s.entries ==> EntryInv(s.entries[x], s.pid, s.phase))
    && (forall x, t :: x in s.entries && t in s.entries[x].threads ==> GateOk(s, x, t, s.entries[x].threads[t]))
  }

  /** Each gate lets an order through only when its condition holds; the lane
      lock is taken by `Lock` alone and given up by `Unlock`. */
  lemma GatesCheck(q: Core, c: Ctx, th: Thread, a: GateAct)
    requires CanGate(c, th, a) && Checked(th, c.goal) && (th.pc.AtLock? ==> th.body.Readable?)
    ensures Checked(GateStep(q, c, th, a).th.value, c.goal)
  {
  }

  lemma CheckedByThread(q: Core, c: Ctx, th: Thread, a: ThreadAct)
    requires CanAct(q, c, th, a) && Checked(th, c.goal) && (NeedsOrder(th.pc) ==> th.body.Readable?)
    ensures var m := ActStep(q, c, th, a);
            m.th.Some? && UnderLock(m.th.value.pc) ==>
              && Checked(m.th.value, c.goal)
              && m.th.value.body == th.body
              && (UnderLock(th.pc) || a == GateA(Lock))
              && a != GateA(Unlock)
  {
    match a {
      case GateA(b) => GatesCheck(q, c, th, b);
      case _ =>
    }
  }

  lemma GateByThread(s: State, x: string, t: nat, a: ThreadAct)
    requires Inv(s) && CanStep(s, On(x, ByThread(t, a)))
    requires x in s.entries && t in s.entries[x].threads
    ensures var s' := DoStep(s, On(x, ByThread(t, a)));
            t in s'.entries[x].threads ==> GateOk(s', x, t, s'.entries[x].threads[t])
  {
    var e := s.entries[x];
    var th := e.threads[t];
    var c := CtxOf(s, x, ByThread(t, a));
    assert GateOk(s, x, t, th);
    assert ClaimAspect(Moved(e.core, Some(th)), s.pid, s.phase);
    CheckedByThread(e.core, c, th, a);
    var m := ActStep(e.core, c, th, a);
    assert DoStep(s, On(x, ByThread(t, a))).entries[x] == Install(e, t, m);
  }

  /** A step of one thread leaves every other delivering thread's lane alone. */
  lemma GateElsewhere(s: State, x: string, a: Act, y: string, u: nat)
    requires Inv(s) && CanStep(s, On(x, a))
    requires y in s.entries && u in s.entries[y].threads
    requires x == y ==> !(a.ByThread? && a.t == u)
    ensures GateOk(DoStep(s, On(x, a)), y, u, s.entries[y].threads[u])
  {
    assert GateOk(s, y, u, s.entries[y].threads[u]);
    if a.ByThread? {
      assert x in s.entries && GateOk(s, x, a.t, s.entries[x].threads[a.t]);
    }
  }

  lemma FreshInv(pid: nat, phase: Phase)
    ensures EntryInv(Entry(FreshCore, map[]), pid, phase)
  {
    assert FreshCore.proof.hist == [];
  }

  lemma EntriesByAct(s: State, x: string, a: Act)
    requires Inv(s) && CanStep(s, On(x, a))
    ensures var s' := DoStep(s, On(x, a)); forall y :: y in s'.entries ==> EntryInv(s'.entries[y], s'.pid, s'.phase)
  {
    var e, c := EntryOf(s, x), CtxOf(s, x, a);
    FreshInv(s.pid, s.phase);
    assert EntryInv(e, s.pid, s.phase);
    ActKeeps(e, c, a);
  }

  lemma StartUnlocked(e: Entry, c: Ctx, t: nat, a: SpawnAct, s: State, x: string)
    requires Enabled(e, c, Start(t, a))
    ensures GateOk(s, x, t, Apply(e, c, Start(t, a)).threads[t])
  {
  }

  lemma GatesByAct(s: State, x: string, a: Act, y: string, u: nat)
    requires Inv(s) && CanStep(s, On(x, a))
    requires y in DoStep(s, On(x, a)).entries && u in DoStep(s, On(x, a)).entries[y].threads
    ensures var s' := DoStep(s, On(x, a)); GateOk(s', y, u, s'.entries[y].threads[u])
  {
    if y == x && a.ByThread? && a.t == u {
      GateByThread(s, x, u, a.a);
    } else if y == x && a.Start? && a.t == u {
      StartUnlocked(EntryOf(s, x), CtxOf(s, x, a), u, a.sp, DoStep(s, On(x, a)), x);
    } else {
      GateElsewhere(s, x, a, y, u);
    }
  }

  /** A goal or lifecycle writer cannot change what a delivering thread checked:
      the mutators hold the lane lock, and enrolment only adds an unheld record. */
  lemma GatesByOther(s: State, p: Step, x: string, t: nat)
    requires Inv(s) && CanStep(s, p) && !p.On? && !p.Crash?
    requires x in s.entries && t in s.entries[x].threads
    ensures GateOk(DoStep(s, p), x, t, s.entries[x].threads[t])
  {
    assert GateOk(s, x, t, s.entries[x].threads[t]);
  }

  lemma EntriesByOther(s: State, p: Step)
    requires Inv(s) && CanStep(s, p) && !p.On?
    ensures var s' := DoStep(s, p); forall x :: x in s'.entries ==> EntryInv(s'.entries[x], s'.pid, s'.phase)
  {
    var s' := DoStep(s, p);
    forall x | x in s.entries ensures EntryInv(s'.entries[x], s'.pid, s'.phase) {
      if p.Crash? { CrashKeeps(s.entries[x], s.pid, s.phase); }
      if p.NextPhase? { PhaseKeeps(s.entries[x], s.pid, s.phase, s'.phase); }
    }
  }

  /** Every step of every process keeps the invariant. */
  lemma InvByStep(s: State, p: Step)
    requires Inv(s) && CanStep(s, p)
    ensures Inv(DoStep(s, p))
  {
    var s' := DoStep(s, p);
    if p.On? { EntriesByAct(s, p.id, p.act); } else { EntriesByOther(s, p); }
    forall x, t | x in s'.entries && t in s'.entries[x].threads ensures GateOk(s', x, t, s'.entries[x].threads[t]) {
      if p.On? { GatesByAct(s, p.id, p.act, x, t); } else { GatesByOther(s, p, x, t); }
    }
  }

  lemma InvAlong(steps: seq<Step>, states: seq<State>, i: nat)
    requires IsRun(steps, states) && i < |states|
    ensures Inv(states[i])
  {
    if i > 0 {
      InvAlong(steps, states, i - 1);
      InvByStep(states[i - 1], steps[i - 1]);
    }
  }
}
