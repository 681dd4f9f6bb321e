/** What the dispatch queue promises of every run, however it is interleaved and
    wherever it crashes. */
module DispatchTheorems {
  import opened Basics
  import opened DispatchQueue
  import opened DispatchSafety

  // ---------------------------------------------------------------- nothing recorded is taken back

  /** `p` extends `q`: the history grows, ledger rows stay, and a stored result
      keeps its status and the order it resolved. */
  predicate Extends(q: Proof, p: Proof) {
    && q.hist <= p.hist
    && q.rows <= p.rows
    && (q.result.Some? ==>
          p.result.Some? && p.result.value.status == q.result.value.status &&
            p.result.value.body == q.result.value.body)
  }

  lemma ActExtends(q: Core, c: Ctx, th: Thread, a: ThreadAct)
    requires CanAct(q, c, th, a) && PointOk(q.proof, th)
    ensures Extends(q.proof, ActStep(q, c, th, a).core.proof)
    ensures (a.SendA? && a.d.Sign?) || ActStep(q, c, th, a).core.proof.rows == q.proof.rows
  {
  }

  predicate Signs(a: Act) {
    a.ByThread? && a.a.SendA? && a.a.d.Sign?
  }

  lemma EntryExtends(e: Entry, c: Ctx, a: Act)
    requires EntryInv(e, c.pid, c.phase) && Enabled(e, c, a)
    ensures Extends(e.core.proof, Apply(e, c, a).core.proof)
    ensures Signs(a) || Apply(e, c, a).core.proof.rows == e.core.proof.rows
  {
    if a.ByThread? {
      assert Keeps(Moved(e.core, Some(e.threads[a.t])), c.pid, c.phase);
      ActExtends(e.core, c, e.threads[a.t], a.a);
    }
  }

  function ProofOf(s: State, x: string): Proof {
    EntryOf(s, x).core.proof
  }

  /** Only the signing step of a delivery adds a ledger row; recovery adds none. */
  lemma StepExtends(s: State, p: Step, x: string)
    requires Inv(s) && CanStep(s, p)
    ensures Extends(ProofOf(s, x), ProofOf(DoStep(s, p), x))
    ensures (p.On? && p.id == x && Signs(p.act)) || ProofOf(DoStep(s, p), x).rows == ProofOf(s, x).rows
  {
    if p.On? && p.id == x {
      FreshInv(s.pid, s.phase);
      EntryExtends(EntryOf(s, x), CtxOf(s, x, p.act), p.act);
    }
  }

  lemma ExtendsTransitive(p: Proof, q: Proof, r: Proof)
    requires Extends(p, q) && Extends(q, r)
    ensures Extends(p, r)
  {
  }

  lemma RunExtends(steps: seq<Step>, states: seq<State>, i: nat, j: nat, x: string)
    requires IsRun(steps, states) && i <= j < |states|
    ensures Extends(ProofOf(states[i], x), ProofOf(states[j], x))
    decreases j
  {
    if i < j {
      RunExtends(steps, states, i, j - 1, x);
      InvAlong(steps, states, j - 1);
      StepExtends(states[j - 1], steps[j - 1], x);
      ExtendsTransitive(ProofOf(states[i], x), ProofOf(states[j - 1], x), ProofOf(states[j], x));
    }
  }

  // ---------------------------------------------------------------- at most one paste

  /** The step that writes order `x` into its pane. */
  predicate Pastes(p: Step, x: string) {
    p.On? && p.id == x && p.act.ByThread? && p.act.a.SendA? && p.act.a.d.Send? && p.act.a.d.reached
  }

  lemma PasteIsRecorded(s: State, p: Step, x: string)
    requires Inv(s) && CanStep(s, p) && Pastes(p, x)
    ensures forall o :: Pasted(o) !in ProofOf(s, x).hist
    ensures exists o :: Pasted(o) in ProofOf(DoStep(s, p), x).hist
  {
    var e, t := s.entries[x], p.act.t;
    assert Keeps(Moved(e.core, Some(e.threads[t])), s.pid, s.phase);
    assert Pasted(e.threads[t].body.order) in ProofOf(DoStep(s, p), x).hist;
  }

  /** An order reaches the pane at most once in a whole run, through crashes,
      reclaims, requeues and re-enqueues of its id. */
  lemma AtMostOnePaste(steps: seq<Step>, states: seq<State>, i: nat, j: nat, x: string)
    requires IsRun(steps, states) && i < j < |steps|
    ensures !(Pastes(steps[i], x) && Pastes(steps[j], x))
  {
    if Pastes(steps[i], x) && Pastes(steps[j], x) {
      InvAlong(steps, states, i);
      PasteIsRecorded(states[i], steps[i], x);
      RunExtends(steps, states, i + 1, j, x);
      InvAlong(steps, states, j);
      PasteIsRecorded(states[j], steps[j], x);
    }
  }

  // ---------------------------------------------------------------- a Sent result is proven

  /** Before position `n`: the nonce was minted, and then `o`'s delivery confirmed. */
  ghost predicate ConfirmedBefore(h: seq<Event>, n: nat, o: Order) {
    exists i, j :: 0 <= i < j < n <= |h|
      && h[i] == Minted
      && h[j].Confirmed? && h[j].order.session == o.session && h[j].order.nudge == o.nudge
  }

  /** Mint, confirmation, signature and publication of `o`, in this order. */
  ghost predicate ProvenSent(h: seq<Event>, o: Order) {
    exists k, l :: 0 <= k < l < |h|
      && ConfirmedBefore(h, k, o)
      && h[k] == Signed(o.session, o.nudge)
      && h[l] == Published(Sent, Readable(o))
  }

  lemma Earlier(h: seq<Event>, n: nat, v: Event) returns (i: nat)
    requires n <= |h| && v in h[..n]
    ensures i < n && h[i] == v
  {
    i :| 0 <= i < n && h[..n][i] == v;
  }

  lemma HistoryProvesSent(p: Proof)
    requires HistoryOk(p) && p.result.Some? && p.result.value.status.Sent?
    ensures p.result.value.body.Readable? && ProvenSent(p.hist, p.result.value.body.order)
  {
    var h, body := p.hist, p.result.value.body;
    var l := Earlier(h, |h|, Published(Sent, body)) by { assert h[..|h|] == h; }
    assert Justified(h[..l], Published(Sent, body));
    var k := Earlier(h, l, Signed(body.order.session, body.order.nudge));
    SignedIsConfirmed(h, k, body.order);
  }

  lemma SignedIsConfirmed(h: seq<Event>, k: nat, o: Order)
    requires WellOrdered(h) && k < |h| && h[k] == Signed(o.session, o.nudge)
    ensures ConfirmedBefore(h, k, o)
  {
    assert Justified(h[..k], h[k]);
    var c :| Confirmed(c) in h[..k] && c.session == o.session && c.nudge == o.nudge;
    var j := Earlier(h, k, Confirmed(c));
    var i := MintedBefore(h, j);
  }

  lemma MintedBefore(h: seq<Event>, j: nat) returns (i: nat)
    requires WellOrdered(h) && j < |h| && h[j].Confirmed?
    ensures i < j && h[i] == Minted
  {
    assert Justified(h[..j], h[j]);
    i := Earlier(h, j, Minted);
  }

  /** A stored Sent result was published after the ledger row for that exact order
      id, session and nudge, which was signed after the delivery was confirmed,
      which happened after the send nonce was minted. */
  lemma SentIsProven(steps: seq<Step>, states: seq<State>, n: nat, x: string)
    requires IsRun(steps, states) && n < |states|
    requires ProofOf(states[n], x).result.Some? && ProofOf(states[n], x).result.value.status.Sent?
    ensures var p := ProofOf(states[n], x);
            p.result.value.body.Readable? && ProvenSent(p.hist, p.result.value.body.order)
  {
    InvAlong(steps, states, n);
    FreshInv(states[n].pid, states[n].phase);
    EntryHistory(EntryOf(states[n], x), states[n].pid, states[n].phase);
    HistoryProvesSent(ProofOf(states[n], x));
  }

  lemma EntryHistory(e: Entry, pid: nat, phase: Phase)
    requires EntryInv(e, pid, phase)
    ensures HistoryOk(e.core.proof) && PlacesOk(e.core.at, e.core.proof.result.Some?)
  {
    if e.threads != map[] {
      var t :| t in e.threads;
      assert Keeps(Moved(e.core, Some(e.threads[t])), pid, phase);
    }
  }

  // ---------------------------------------------------------------- the gates hold at the paste

  /** Thread `u` of order `y` delivers to the lane under its lock. */
  predicate Delivers(s: State, y: string, u: nat, lane: string)
    requires y in s.entries && u in s.entries[y].threads
  {
    UnderLock(s.entries[y].threads[u].pc) && SessionOf(s.entries[y].threads[u].body) == lane
  }

  /** At every paste, against the goal as it is stored at that moment: a goal-bound
      order still matches its contract and the goal is neither held nor done, no
      guard hold is active unless the sealed bypass applies, the lifecycle value
      read under the lane lock allows the order, and no other thread delivers to
      that lane. */
  lemma PasteIsGated(steps: seq<Step>, states: seq<State>, n: nat, x: string)
    requires IsRun(steps, states) && n < |steps| && Pastes(steps[n], x)
    ensures x in states[n].entries && steps[n].act.t in states[n].entries[x].threads
    ensures var th := states[n].entries[x].threads[steps[n].act.t];
            && th.body.Readable?
            && ContractHolds(th.body.order, GoalOf(states[n], th.body.order.session))
            && (SealedBypass(th.body.order) || !GuardHeld(GoalOf(states[n], th.body.order.session)))
            && LifeAllows(th.body.order, th.life)
    ensures forall y, u :: y in states[n].entries && u in states[n].entries[y].threads
                           && Delivers(states[n], y, u, SessionOf(states[n].entries[x].threads[steps[n].act.t].body))
              ==> y == x && u == steps[n].act.t
  {
    InvAlong(steps, states, n);
    assert GateOk(states[n], x, steps[n].act.t, states[n].entries[x].threads[steps[n].act.t]);
    forall y, u | y in states[n].entries && u in states[n].entries[y].threads
                  && Delivers(states[n], y, u, SessionOf(states[n].entries[x].threads[steps[n].act.t].body))
      ensures y == x && u == steps[n].act.t
    {
      assert GateOk(states[n], y, u, states[n].entries[y].threads[u]);
    }
  }

  // ---------------------------------------------------------------- conservation

  /** No enqueued order is ever lost, and it rests in processed/ or invalid/ only
      with a stored result. It is in at most one directory for each time it was
      enqueued, each move a crash cut in half and each move under way. Enqueued
      once, it is one file, however many directories link to it; if moreover no
      crash cut a move, it is in exactly one directory and one more for each move
      under way. */
  lemma Conservation(steps: seq<Step>, states: seq<State>, n: nat, x: string)
    requires IsRun(steps, states) && n < |states|
    ensures var e := EntryOf(states[n], x);
            var at := e.core.at;
            && (at.enqueues > 0 <==> PlaceCount(at) > 0)
            && (at.processed.Some? || at.invalid.Some? ==> e.core.proof.result.Some?)
            && (at.enqueues == 1 ==> OneInode(at))
            && Bounded(at, SomeMidMove(e.threads))
            && Exact(at, SomeMidMove(e.threads))
  {
    InvAlong(steps, states, n);
    FreshInv(states[n].pid, states[n].phase);
    var e := EntryOf(states[n], x);
    EntryHistory(e, states[n].pid, states[n].phase);
    if e.threads != map[] {
      var t :| t in e.threads;
      assert Keeps(Moved(e.core, Some(e.threads[t])), states[n].pid, states[n].phase);
    }
  }

  /** The status a result was published with never changes. */
  lemma ResultIsFinal(steps: seq<Step>, states: seq<State>, i: nat, j: nat, x: string)
    requires IsRun(steps, states) && i <= j < |states|
    requires ProofOf(states[i], x).result.Some?
    ensures var r, r' := ProofOf(states[i], x).result, ProofOf(states[j], x).result;
            r'.Some? && r'.value.status == r.value.status && r'.value.body == r.value.body
  {
    RunExtends(steps, states, i, j, x);
  }

  // ---------------------------------------------------------------- a result says what its attempt ended with

  /** The checking and sending steps, in which an attempt may end with a status. */
  predicate Tries(p: Step, x: string) {
    p.On? && p.id == x && p.act.ByThread? &&
      match p.act.a
      case ClaimA(a) => a.Read? || a.PreGate?
      case GateA(a) => a.GoalGate? || a.LifeGate? || a.OwnerGate?
      case SendA(a) => a.NonceGate? || a.Send?
      case _ => false
  }

  lemma ActPublishes(q: Core, c: Ctx, th: Thread, a: ThreadAct)
    requires CanAct(q, c, th, a) && OutcomeOk(q, Some(th)) && q.proof.result.None?
    ensures var p := ActStep(q, c, th, a).core.proof;
            p.result.Some? ==> q.proof.concluded == Some(Conclusion(p.result.value.status, p.result.value.body))
  {
  }

  lemma ActTries(q: Core, c: Ctx, th: Thread, a: ThreadAct)
    requires CanAct(q, c, th, a) && !Tries(On("", ByThread(0, a)), "")
    ensures ActStep(q, c, th, a).core.proof.concluded == q.proof.concluded
  {
  }

  lemma EntryPublishes(e: Entry, c: Ctx, a: Act)
    requires EntryInv(e, c.pid, c.phase) && Enabled(e, c, a) && e.core.proof.result.None?
    ensures var p := Apply(e, c, a).core.proof;
            p.result.Some? ==> e.core.proof.concluded == Some(Conclusion(p.result.value.status, p.result.value.body))
  {
    if a.ByThread? {
      assert Keeps(Moved(e.core, Some(e.threads[a.t])), c.pid, c.phase);
      ActPublishes(e.core, c, e.threads[a.t], a.a);
    }
  }

  lemma StepPublishes(s: State, p: Step, x: string)
    requires Inv(s) && CanStep(s, p) && ProofOf(s, x).result.None? && ProofOf(DoStep(s, p), x).result.Some?
    ensures var r := ProofOf(DoStep(s, p), x).result.value;
            ProofOf(s, x).concluded == Some(Conclusion(r.status, r.body))
  {
    if p.On? && p.id == x {
      FreshInv(s.pid, s.phase);
      EntryPublishes(EntryOf(s, x), CtxOf(s, x, p.act), p.act);
    }
  }

  /** The step that stores an order's result stores the status the latest attempt ended with, for the order it was
      for. */
  lemma PublishedIsConcluded(steps: seq<Step>, states: seq<State>, n: nat, x: string)
    requires IsRun(steps, states) && n < |steps|
    requires ProofOf(states[n], x).result.None? && ProofOf(states[n + 1], x).result.Some?
    ensures var r := ProofOf(states[n + 1], x).result.value;
            ProofOf(states[n], x).concluded == Some(Conclusion(r.status, r.body))
  {
    InvAlong(steps, states, n);
    StepPublishes(states[n], steps[n], x);
  }

  lemma ConcludedStays(steps: seq<Step>, states: seq<State>, n: nat, x: string)
    requires IsRun(steps, states) && n < |steps| && !Tries(steps[n], x)
    ensures ProofOf(states[n + 1], x).concluded == ProofOf(states[n], x).concluded
  {
    var s, p := states[n], steps[n];
    if p.On? && p.id == x && p.act.ByThread? {
      var e := EntryOf(s, x);
      ActTries(e.core, CtxOf(s, x, p.act), e.threads[p.act.t], p.act.a);
    }
  }

  /** The stored result, if any, is the one the latest attempt ended with. */
  predicate Tells(p: Proof, c: Option<Conclusion>) {
    p.concluded == c && (p.result.Some? ==> c == Some(Conclusion(p.result.value.status, p.result.value.body)))
  }

  lemma TellsOn(steps: seq<Step>, states: seq<State>, n: nat, x: string, c: Option<Conclusion>)
    requires IsRun(steps, states) && n < |steps| && !Tries(steps[n], x) && Tells(ProofOf(states[n], x), c)
    ensures Tells(ProofOf(states[n + 1], x), c)
  {
    ConcludedStays(steps, states, n, x);
    if ProofOf(states[n], x).result.Some? { ResultIsFinal(steps, states, n, n + 1, x); }
    else if ProofOf(states[n + 1], x).result.Some? { PublishedIsConcluded(steps, states, n, x); }
  }

  /** Once an attempt has ended with a status, only that status can be stored for that order until another attempt
      checks or sends it again: a delivery that ended in Sent is never recorded as anything else. */
  lemma {:induction false} OutcomeStands(steps: seq<Step>, states: seq<State>, i: nat, j: nat, x: string)
    requires IsRun(steps, states) && i <= j < |states|
    requires ProofOf(states[i], x).result.None? && ProofOf(states[i], x).concluded.Some?
    requires forall n :: i <= n < j ==> !Tries(steps[n], x)
    ensures Tells(ProofOf(states[j], x), ProofOf(states[i], x).concluded)
    decreases j - i
  {
    if i < j {
      OutcomeStands(steps, states, i, j - 1, x);
      TellsOn(steps, states, j - 1, x, ProofOf(states[i], x).concluded);
    }
  }

  // ---------------------------------------------------------------- what conservation does not promise

  ghost predicate Reachable(s: State) {
    exists steps, states :: IsRun(steps, states) && states[|steps|] == s
  }

  lemma ReachInit()
    ensures Reachable(Init)
  {
    var none: seq<Step> := [];
    assert IsRun(none, [Init]) && [Init][|none|] == Init;
  }

  lemma Reach(s: State, p: Step)
    requires Reachable(s) && CanStep(s, p)
    ensures Reachable(DoStep(s, p))
  {
    var steps, states :| IsRun(steps, states) && states[|steps|] == s;
    var steps', states' := steps + [p], states + [DoStep(s, p)];
    assert IsRun(steps', states') && states'[|steps'|] == DoStep(s, p);
  }

  /** One order alone in the queue, with at most one thread on it. */
  function Alone(pid: nat, phase: Phase, q: Core, threads: map<nat, Thread>): State {
    State(pid, phase, map["x" := Entry(q, threads)], 1, map[], map[], map[])
  }

  function Threads(th: Option<Thread>): map<nat, Thread> { if th.Some? then map[0 := th.value] else map[] }

  lemma ReachAlone(pid: nat, phase: Phase, q: Core, th: Thread, a: ThreadAct)
    requires Reachable(Alone(pid, phase, q, map[0 := th])) && CanAct(q, Ctx(pid, phase, None, NoRecord, true), th, a)
    requires !a.GateA? || a.g.LockTimeout?
    ensures var m := ActStep(q, Ctx(pid, phase, None, NoRecord, true), th, a);
            Reachable(Alone(pid, phase, m.core, Threads(m.th)))
  {
    var s, act := Alone(pid, phase, q, map[0 := th]), ByThread(0, a);
    assert EntryOf(s, "x") == Entry(q, map[0 := th]);
    assert CtxOf(s, "x", act) == Ctx(pid, phase, None, NoRecord, true);
    Reach(s, On("x", act));
    var m := ActStep(q, Ctx(pid, phase, None, NoRecord, true), th, a);
    assert (if m.th.Some? then map[0 := th][0 := m.th.value] else map[0 := th] - {0}) == Threads(m.th);
    assert DoStep(s, On("x", act)).entries == map["x" := Entry(m.core, Threads(m.th))];
  }

  lemma ReachSpawn(pid: nat, phase: Phase, q: Core, a: SpawnAct)
    requires Reachable(Alone(pid, phase, q, map[]))
    requires CanSpawn(Entry(q, map[]), Ctx(pid, phase, None, NoRecord, true), a)
    ensures var m := Spawn(q, Ctx(pid, phase, None, NoRecord, true), a);
            Reachable(Alone(pid, phase, m.core, map[0 := m.th.value]))
  {
    var s, act := Alone(pid, phase, q, map[]), Start(0, a);
    assert EntryOf(s, "x") == Entry(q, map[]);
    assert CtxOf(s, "x", act) == Ctx(pid, phase, None, NoRecord, true);
    Reach(s, On("x", act));
    var m := Spawn(q, Ctx(pid, phase, None, NoRecord, true), a);
    assert map[][0 := m.th.value] == map[0 := m.th.value];
    assert DoStep(s, On("x", act)).entries == map["x" := Entry(m.core, map[0 := m.th.value])];
  }

  const AnOrder: Order := Order("lane", "nudge", None, None, OrdinaryMessage, OrdinaryTask, false)

  /** The one file of order "x", and its places while it is nowhere yet. */
  function AFile(body: Body): Option<File> { Some(File(0, body)) }
  const NoPlace: Places := Places(None, None, None, None, None, false, 0, 1, 0)

  lemma ReachPhase(pid: nat, phase: Phase, q: Core, next: Phase)
    requires Reachable(Alone(pid, phase, q, map[])) && q.record.None? && next == (if phase.Sweep? then Drain else Work)
    requires !phase.Work?
    ensures Reachable(Alone(pid, next, q, map[]))
  {
    Reach(Alone(pid, phase, q, map[]), NextPhase);
  }

  lemma ReachEnqueued(body: Body)
    ensures Reachable(Alone(1, Work, Core(NoPlace.(orders := AFile(body)), None, None, FreshCore.proof), map[]))
  {
    ReachInit();
    var p := On("x", Env(Enqueue(body, 0)));
    Reach(Init, p);
    var q := Core(NoPlace.(orders := AFile(body)), None, None, FreshCore.proof);
    assert DoStep(Init, p) == Alone(1, Sweep, q, map[]);
    ReachPhase(1, Sweep, q, Drain);
    ReachPhase(1, Drain, q, Work);
  }

  /** Order "x" claimed, about to be read. */
  lemma ReachClaimed(body: Body)
    ensures Reachable(Alone(1, Work, Core(NoPlace.(inFlight := AFile(body)), Some(1), None, FreshCore.proof),
                            map[0 := Thread(Claimer, Garbage, NoRecord, AtRead)]))
  {
    ReachEnqueued(body);
    var q := Core(NoPlace.(orders := AFile(body)), None, None, FreshCore.proof);
    ReachSpawn(1, Work, q, Reserve);
    ReachAlone(1, Work, q.(owner := Some(1)), Thread(Claimer, Garbage, NoRecord, AtClaim), ClaimA(Claim));
  }

  /** A crash between the hard link and the unlink of a deferral leaves the order
      in two directories at once, both linking to one file. */
  lemma CrashSplitsAMove()
    ensures exists s :: Reachable(s)
              && var at := EntryOf(s, "x").core.at; at.enqueues == 1 && at.inFlight.Some? && at.deferred.Some?
  {
    var body := Readable(AnOrder);
    ReachClaimed(body);
    var q := Core(NoPlace.(inFlight := AFile(body)), Some(1), None, FreshCore.proof);
    var th := Thread(Claimer, body, NoRecord, AtPreResult);
    ReachAlone(1, Work, q, th.(body := Garbage, pc := AtRead), ClaimA(Read));
    ReachAlone(1, Work, q, th, ClaimA(PreResult));
    ReachAlone(1, Work, q, th.(pc := AtPreGate), ClaimA(PreGate(true, None, false)));
    ReachAlone(1, Work, q, th.(pc := AtLock), GateA(LockTimeout));
    ReachAlone(1, Work, q, th.(pc := Decided(Defer)), SettleA(Decide));
    ReachAlone(1, Work, q, th.(pc := AtDeferLink), MoveA(DeferLink));
    var q' := q.(at := q.at.(deferred := AFile(body)));
    Reach(Alone(1, Work, q', map[0 := th.(pc := AtDeferUnlink)]), Crash);
    var s := DoStep(Alone(1, Work, q', map[0 := th.(pc := AtDeferUnlink)]), Crash);
    assert "x" in s.entries && EntryOf(s, "x").core.at.deferred.Some?;
  }

  /** A producer that enqueues an id the queue already holds puts a second file
      under it; `locate_order` tells beforehand. */
  lemma ReenqueueSplitsAnId()
    ensures exists s :: Reachable(s)
              && var at := EntryOf(s, "x").core.at;
                 at.cuts == 0 && at.inFlight.Some? && at.orders.Some? && !OneInode(at)
  {
    var body := Readable(AnOrder);
    ReachClaimed(body);
    var q := Core(NoPlace.(inFlight := AFile(body)), Some(1), None, FreshCore.proof);
    var s := Alone(1, Work, q, map[0 := Thread(Claimer, Garbage, NoRecord, AtRead)]);
    var p := On("x", Env(Enqueue(body, 1)));
    Reach(s, p);
    assert EntryOf(DoStep(s, p), "x").core.at.orders == Some(File(1, body));
  }

  // ---------------------------------------------------------------- a cut move can be repaired

  const Bad: Option<File> := Some(File(0, Garbage))
  const Doomed: Proof := Conclude(FreshCore.proof, Failed, Garbage)
  const Rejected: Proof := Store(Doomed, Failed, Garbage)
  const Finalizer: Thread := Thread(Claimer, Garbage, NoRecord, AtFinalLink(Invalid))

  /** An unreadable order, rejected; the process dies between the link and the unlink of its last move. */
  lemma ReachCutFinal()
    ensures Reachable(Alone(2, Sweep,
                            Core(NoPlace.(inFlight := Bad, invalid := Bad, cuts := 1), Some(1), None, Rejected), map[]))
  {
    ReachClaimed(Garbage);
    var q := Core(NoPlace.(inFlight := Bad), Some(1), None, FreshCore.proof);
    ReachAlone(1, Work, q, Finalizer.(pc := AtRead), ClaimA(Read));
    ReachAlone(1, Work, q.(proof := Doomed), Finalizer.(pc := AtCreate(Failed, Invalid)), SettleA(Create));
    var q1 := q.(proof := Rejected);
    ReachAlone(1, Work, q1, Finalizer, MoveA(FinalLink));
    var th := Finalizer.(pc := AtFinalUnlink(Invalid));
    var s := Alone(1, Work, q1.(at := q1.at.(invalid := Bad)), map[0 := th]);
    Reach(s, Crash);
    assert s.entries["x"].threads[0] == th && SomeMidMove(s.entries["x"].threads);
    assert CrashEntry(s.entries["x"]) ==
           Entry(Core(NoPlace.(inFlight := Bad, invalid := Bad, cuts := 1), Some(1), None, Rejected), map[]);
    assert DoStep(s, Crash).entries
        == map["x" := Entry(Core(NoPlace.(inFlight := Bad, invalid := Bad, cuts := 1), Some(1), None, Rejected),
                            map[])];
  }

  /** The next process reclaims the claim into orders/ and claims it again. */
  lemma ReachReclaimed()
    ensures Reachable(Alone(2, Work,
                            Core(NoPlace.(inFlight := Bad, invalid := Bad, cuts := 1), Some(2), None, Rejected),
                            map[0 := Finalizer.(pc := AtRead)]))
  {
    ReachCutFinal();
    var q := Core(NoPlace.(inFlight := Bad, invalid := Bad, cuts := 1), Some(1), None, Rejected);
    ReachSpawn(2, Sweep, q, BeginSweep);
    var th := Thread(Sweeper, Garbage, NoRecord, AtSweepUnlink);
    ReachAlone(2, Sweep, q.(at := q.at.(orders := Bad)), th, MoveA(SweepUnlink));
    var q1 := q.(at := q.at.(orders := Bad, inFlight := None));
    ReachAlone(2, Sweep, q1, th.(pc := AtUnmark), SettleA(Unmark));
    var q2 := q1.(owner := None);
    ReachPhase(2, Sweep, q2, Drain);
    ReachPhase(2, Drain, q2, Work);
    ReachSpawn(2, Work, q2, Reserve);
    ReachAlone(2, Work, q2.(owner := Some(2)), Finalizer.(pc := AtClaim), ClaimA(Claim));
  }

  /** A cut move does not stay visible: the next pass can finish it, and the order is
      then in one directory although a crash had put it in two. So the count is exact
      only up to cuts. */
  lemma CutMoveIsRepaired()
    ensures exists s :: Reachable(s)
              && var e := EntryOf(s, "x");
                 e.core.at.cuts > 0 && !e.core.at.requeueing && !SomeMidMove(e.threads) && PlaceCount(e.core.at) == 1
  {
    ReachReclaimed();
    var q := Core(NoPlace.(inFlight := Bad, invalid := Bad, cuts := 1), Some(2), None, Rejected);
    ReachAlone(2, Work, q, Finalizer.(pc := AtRead), ClaimA(Read));
    assert Conclude(Rejected, Failed, Garbage) == Rejected;
    ReachAlone(2, Work, q, Finalizer.(pc := AtCreate(Failed, Invalid)), SettleA(Create));
    ReachAlone(2, Work, q, Finalizer, MoveA(FinalLink));
    ReachAlone(2, Work, q, Finalizer.(pc := AtFinalUnlink(Invalid)), MoveA(FinalUnlink));
    var s := Alone(2, Work, q.(at := q.at.(inFlight := None)), map[0 := Finalizer.(pc := AtClearNonce)]);
    assert Reachable(s) && EntryOf(s, "x") == s.entries["x"];
    assert !SomeMidMove(s.entries["x"].threads);
  }
}
