/** The dispatch queue of src/chitra/dispatchd.py as steps over an abstract store.

    Every durable write of the delivery path is one action: creating the owner
    marker, the claim rename, minting the send nonce, the pane write, the ledger
    append, publishing the result, the hard link and the unlink of each move,
    clearing the nonce. `Crash` may fall between any two of them. Producers, goal
    writers and requeue sweeps are competing processes.

    One dispatcher process serves a queue at a time; it restarts under a new pid
    after a crash and may run any number of threads. A main pass runs through the
    phases `Sweep` (reclaim), `Drain` (apply worker records, return abandoned
    claims) and `Work` (claim pending orders); workers run in every phase. */
module DispatchQueue {
  import opened Basics

  // ---------------------------------------------------------------- store

  datatype Kind = OrdinaryMessage | OperatorRelay | GoalContractAnswer

  datatype Task = OrdinaryTask | GuardTask | PausePruneTask

  datatype Order = Order(session: string, nudge: string,
                         goalVersion: Option<nat>, goalDigest: Option<string>,
                         kind: Kind, task: Task, bypass: bool)

  /** What a queue file holds; `Garbage` fails to parse. */
  datatype Body = Readable(order: Order) | Garbage

  /** Hard links to one order share the inode. */
  datatype File = File(inode: nat, body: Body)

  datatype GoalStatus = Working | Held | Idle | Blocked0 | TurnFinished | Disputed
                      | DonePendingVerification | DonePendingClose

  /** The part of a goal record dispatch reads. `content` stands for the injective
      goal digest; `guardHold` says the hold reason carries a rate-limit or
      load-shed prefix. */
  datatype Goal = Goal(version: nat, content: string, status: GoalStatus, guardHold: bool)

  datatype Life = NoRecord | Active | Paused | Shelved | Closed | UnknownState | Unreadable

  datatype Status = Sent | Blocked | Failed | CompletionDispute | Unconfirmed

  /** A stored result, with the order it resolved. */
  datatype Stored = Stored(status: Status, body: Body, proven: bool)

  /** The status a delivery attempt ended with, and the order it was for. */
  datatype Conclusion = Conclusion(status: Status, body: Body)

  datatype Outcome = ResultOf(status: Status) | ExistingResult | Defer | LedgerPending

  datatype Event =
    | Minted
    | Pasted(order: Order)
    | Confirmed(order: Order)
    | Signed(session: string, nudge: string)
    | Published(status: Status, body: Body)

  datatype Dest = Processed | Invalid

  /** Where a thread stands; the name says what its next action does. */
  datatype Pc =
    | AtClaim | AtRead | AtPreResult | AtPreGate | AtLock
    | AtRecheck | AtGoal | AtLife | AtOwner | AtHold | AtNonce | AtMint | AtSend
    | AtUnlock(out: Outcome)
    | AtSign | Decided(out: Outcome)
    | AtVerify | AtPublish | AtCreate(status: Status, dest: Dest)
    | AtFinalLink(dest: Dest) | AtFinalUnlink(dest: Dest) | AtClearNonce
    | AtRecover | AtDeferLink | AtDeferUnlink
    | AtSweepUnlink | AtUnmark
    | AtDropRecord

  /** `Claimer` runs an order's delivery inline, `Worker` runs it on the pool,
      `Drainer` applies a worker's record, `Sweeper` returns a claim to orders/. */
  datatype Role = Claimer | Worker | Drainer | Sweeper

  datatype Thread = Thread(role: Role, body: Body, life: Life, pc: Pc)

  /** The directories one order id occupies. */
  datatype Places = Places(
    orders: Option<File>, inFlight: Option<File>, deferred: Option<File>,
    processed: Option<File>, invalid: Option<File>,
    requeueing: bool,           // a requeue sweep is between its link and its unlink
    first: nat,                 // the inode first enqueued
    enqueues: nat, cuts: nat)   // how often enqueued; how many moves were cut in half

  /** What the queue can prove about one order id: send nonce, stored result,
      signed ledger rows carrying the id, and the history of its events.
      `concluded` is what the latest attempt ended with; nothing reads it. */
  datatype Proof = Proof(nonce: bool, result: Option<Stored>, rows: set<(string, string)>, hist: seq<Event>,
                         concluded: Option<Conclusion>)

  /** Everything stored about one order id: `owner` is the claim marker's pid,
      `record` the outcome a delivery worker left for the drain. */
  datatype Core = Core(at: Places, owner: Option<nat>, record: Option<Outcome>, proof: Proof)

  const FreshCore: Core := Core(Places(None, None, None, None, None, false, 0, 0, 0), None, None,
                                Proof(false, None, {}, [], None))

  datatype Entry = Entry(core: Core, threads: map<nat, Thread>)

  datatype Phase = Sweep | Drain | Work

  datatype Holder = Holder(pid: nat, id: string, thread: nat)

  datatype State = State(pid: nat, phase: Phase, entries: map<string, Entry>, nextInode: nat,
                         goals: map<string, Goal>, lives: map<string, Life>, locks: map<string, Holder>)

  const Init: State := State(1, Sweep, map[], 0, map[], map[], map[])

  function EntryOf(s: State, x: string): Entry {
    if x in s.entries then s.entries[x] else Entry(FreshCore, map[])
  }

  // ---------------------------------------------------------------- gates

  function GoalBound(o: Order): bool {
    o.goalVersion.Some? || o.goalDigest.Some?
  }

  /** Why a goal-bound order may not be delivered now. */
  datatype Rejection = NoRejection | StaleContract | GoalHeld | NotActionable | InvalidAnswer

  function GoalRejection(o: Order, goal: Option<Goal>, answerValid: bool): (r: Rejection) {
    if !GoalBound(o) then NoRejection
    else if goal.None? || o.goalVersion != Some(goal.value.version) || o.goalDigest != Some(goal.value.content)
         then StaleContract
    else if goal.value.status.Held? then GoalHeld
    else if goal.value.status.DonePendingVerification? || goal.value.status.DonePendingClose? then NotActionable
    else if o.kind.GoalContractAnswer? && !answerValid then InvalidAnswer
    else NoRejection
  }

  /** The contract a goal-bound order must still meet when it is pasted. */
  predicate ContractHolds(o: Order, goal: Option<Goal>) {
    GoalBound(o) ==>
      && goal.Some?
      && o.goalVersion == Some(goal.value.version)
      && o.goalDigest == Some(goal.value.content)
      && !goal.value.status.Held?
      && !goal.value.status.DonePendingVerification?
      && !goal.value.status.DonePendingClose?
  }

  /** dispatchd honours the bypass bit only for its own sealed task types. */
  predicate SealedBypass(o: Order) {
    o.bypass && o.task.GuardTask?
  }

  predicate GuardHeld(goal: Option<Goal>) {
    goal.Some? && goal.value.status.Held? && goal.value.guardHold
  }

  /** Lifecycle values under which the order may reach the pane. */
  predicate LifeAllows(o: Order, life: Life) {
    life.NoRecord? || life.Active? || (life.Paused? && o.task.PausePruneTask?)
  }

  // ---------------------------------------------------------------- what a thread does next

  /** What an action on one order reads from outside its entry. */
  datatype Ctx = Ctx(pid: nat, phase: Phase, goal: Option<Goal>, life: Life, lockFree: bool)

  /** What an action leaves behind: the stored state, and the acting thread unless it ended. */
  datatype Moved = Moved(core: Core, th: Option<Thread>)

  predicate UnderLock(pc: Pc) {
    pc.AtRecheck? || pc.AtGoal? || pc.AtLife? || pc.AtOwner? || pc.AtHold? || pc.AtNonce? || pc.AtMint? ||
      pc.AtSend? || pc.AtUnlock?
  }

  predicate MidMove(pc: Pc) {
    pc.AtFinalUnlink? || pc.AtDeferUnlink? || pc.AtSweepUnlink?
  }

  /** The session a file or result names; an unreadable order names none. */
  function SessionOf(body: Body): string {
    if body.Readable? then body.order.session else ""
  }

  function Goto(q: Core, th: Thread, pc: Pc): Moved {
    Moved(q, Some(th.(pc := pc)))
  }

  function Place(q: Core, at: Places, th: Thread, pc: Pc): Moved {
    Moved(q.(at := at), Some(th.(pc := pc)))
  }

  function Prove(q: Core, proof: Proof, th: Thread, pc: Pc): Moved {
    Moved(q.(proof := proof), Some(th.(pc := pc)))
  }

  function Log(p: Proof, v: Event): Proof {
    p.(hist := p.hist + [v])
  }

  /** Publishing a result: the exclusive create of its file. */
  function Store(p: Proof, status: Status, body: Body): Proof {
    Log(p.(result := Some(Stored(status, body, status.Sent?))), Published(status, body))
  }

  /** The attempt ends with a status for the order in hand. */
  function Conclude(p: Proof, status: Status, body: Body): Proof {
    p.(concluded := Some(Conclusion(status, body)))
  }

  /** Where a thread goes once its queue writes are done: a drainer first consumes
      the record, every role then removes the owner marker. */
  function Finished(th: Thread): Pc {
    if th.role.Drainer? then AtDropRecord else AtUnmark
  }

  // Claiming an order and the checks made before the lane lock.

  datatype ClaimAct = Claim | Read | PreResult | PreGate(answerValid: bool, veto: Option<Status>, pooled: bool)

  predicate CanClaim(q: Core, th: Thread, a: ClaimAct) {
    match a
    case Claim => th.pc.AtClaim?
    case Read => th.pc.AtRead? && q.at.inFlight.Some?
    case PreResult => th.pc.AtPreResult?
    case PreGate(_, veto, _) =>
      th.pc.AtPreGate? && th.body.Readable? && (veto.Some? ==> veto.value in {Blocked, Failed, CompletionDispute})
  }

  function ClaimStep(q: Core, c: Ctx, th: Thread, a: ClaimAct): Moved
    requires CanClaim(q, th, a)
  {
    match a
    case Claim =>
      if q.at.orders.None? then Goto(q, th, AtUnmark)                    // claimed elsewhere
      else if q.at.inFlight.Some? && q.at.inFlight.value.inode == q.at.orders.value.inode
      then Goto(q, th, AtRead)                 // renaming onto a link to the same inode does nothing
      else Place(q, q.at.(inFlight := q.at.orders, orders := None), th, AtRead)
    case Read =>
      var body := q.at.inFlight.value.body;
      if body.Garbage? then Prove(q, Conclude(q.proof, Failed, body), th.(body := body), AtCreate(Failed, Invalid))
      else Goto(q, th.(body := body), AtPreResult)
    case PreResult => Goto(q, th, if q.proof.result.Some? then AtRecover else AtPreGate)
    case PreGate(answerValid, veto, pooled) =>
      var o := th.body.order;
      var r := GoalRejection(o, c.goal, answerValid);
      if r.GoalHeld? && o.kind.OperatorRelay? then Goto(q, th, AtDeferLink)
      else if !r.NoRejection? then Prove(q, Conclude(q.proof, Blocked, th.body), th, AtCreate(Blocked, Processed))
      else if veto.Some?                       // attestation, scope or completion audit
      then Prove(q, Conclude(q.proof, veto.value, th.body), th, AtCreate(veto.value, Processed))
      else Goto(q, th.(role := if pooled then Worker else th.role), AtLock)
  }

  // The delivery stage: gates, nonce, pane write, ledger.

  datatype GateAct = Lock | LockTimeout | Recheck | GoalGate(answerValid: bool) | LifeGate
                   | OwnerGate(refused: bool) | HoldGate | Raise | Unlock

  predicate CanGate(c: Ctx, th: Thread, a: GateAct) {
    match a
    case Lock => th.pc.AtLock? && c.lockFree
    case LockTimeout => th.pc.AtLock?
    case Recheck => th.pc.AtRecheck?
    case GoalGate(_) => th.pc.AtGoal? && th.body.Readable?
    case LifeGate => th.pc.AtLife? && th.body.Readable?
    case OwnerGate(_) => th.pc.AtOwner?
    case HoldGate => th.pc.AtHold? && th.body.Readable?
    case Raise => UnderLock(th.pc)
    case Unlock => th.pc.AtUnlock?
  }

  /** Gates only read; the next program point carries their verdict. */
  function GatePc(q: Core, c: Ctx, th: Thread, a: GateAct): Pc
    requires CanGate(c, th, a)
  {
    match a
    case Lock => AtRecheck
    case LockTimeout => Decided(Defer)
    case Recheck => if q.proof.result.Some? then AtUnlock(ExistingResult) else AtGoal
    case GoalGate(answerValid) =>
      var o := th.body.order;
      var r := GoalRejection(o, c.goal, answerValid);
      if r.GoalHeld? && o.kind.OperatorRelay? then AtUnlock(Defer)
      else if !r.NoRejection? then AtUnlock(ResultOf(Blocked))
      else AtLife
    case LifeGate =>
      if c.life.Unreadable? || c.life.UnknownState? then AtUnlock(ResultOf(Blocked))
      else if (c.life.Paused? || c.life.Shelved?) && !(c.life.Paused? && th.body.order.task.PausePruneTask?)
           then AtUnlock(Defer)
      else if c.life.Closed? then AtUnlock(ResultOf(Blocked))
      else AtOwner
    case OwnerGate(refused) => if refused then AtUnlock(ResultOf(Blocked)) else AtHold
    case HoldGate =>
      if !SealedBypass(th.body.order) && GuardHeld(c.goal) then AtUnlock(Defer) else AtNonce
    case Raise => AtUnlock(LedgerPending)      // an exception; `finally` still releases the lock
    case Unlock => if th.pc.out == ResultOf(Sent) then AtSign else Decided(th.pc.out)
  }

  function GateStep(q: Core, c: Ctx, th: Thread, a: GateAct): Moved
    requires CanGate(c, th, a)
  {
    var pc := GatePc(q, c, th, a);
    var next := if a.LifeGate? then th.(life := c.life) else th;
    if !a.Unlock? && pc == AtUnlock(ResultOf(Blocked)) then Prove(q, Conclude(q.proof, Blocked, th.body), next, pc)
    else Goto(q, next, pc)
  }

  datatype SendAct = NonceGate(confirmed: bool, laneDead: bool) | Mint | Send(reached: bool, status: Status)
                   | Sign(ledgerUp: bool) | RecordOutcome | WorkerDies

  /** A status `dispatch_to_tmux` may return; a pane write that was never attempted
      yields neither `Sent` nor `Unconfirmed`. */
  predicate SendStatus(reached: bool, status: Status) {
    !status.CompletionDispute? && (status.Sent? || status.Unconfirmed? ==> reached)
  }

  predicate CanSend(th: Thread, a: SendAct) {
    match a
    case NonceGate(_, _) => th.pc.AtNonce? && th.body.Readable?
    case Mint => th.pc.AtMint?
    case Send(reached, status) => th.pc.AtSend? && th.body.Readable? && SendStatus(reached, status)
    case Sign(_) => th.pc.AtSign? && th.body.Readable?
    case RecordOutcome => th.pc.Decided? && th.role.Worker?
    case WorkerDies => th.role.Worker? && !UnderLock(th.pc)
  }

  function SendStep(q: Core, th: Thread, a: SendAct): Moved
    requires CanSend(th, a)
  {
    var p := q.proof;
    match a
    case NonceGate(confirmed, laneDead) =>
      if laneDead then Prove(q, Conclude(p, Failed, th.body), th, AtUnlock(ResultOf(Failed)))
      else if p.nonce && confirmed
      then Prove(q, Conclude(Log(p, Confirmed(th.body.order)), Sent, th.body), th, AtUnlock(ResultOf(Sent)))
      else if p.nonce                          // verify-only: never paste again
      then Prove(q, Conclude(p, Unconfirmed, th.body), th, AtUnlock(ResultOf(Unconfirmed)))
      else Goto(q, th, AtMint)
    case Mint => Prove(q, Log(p, Minted).(nonce := true), th, AtSend)
    case Send(reached, status) =>
      var p1 := if reached then Log(p, Pasted(th.body.order)) else p;
      var p2 := if status.Sent? then Log(p1, Confirmed(th.body.order)) else p1;
      Prove(q, Conclude(p2, status, th.body), th, AtUnlock(ResultOf(status)))
    case Sign(ledgerUp) =>
      var row := (th.body.order.session, th.body.order.nudge);
      if !ledgerUp then Goto(q, th, Decided(LedgerPending))
      else if row in p.rows then Goto(q, th, Decided(ResultOf(Sent)))
      else Prove(q, Log(p.(rows := p.rows + {row}), Signed(row.0, row.1)), th, Decided(ResultOf(Sent)))
    case RecordOutcome => Moved(q.(record := Some(th.pc.out)), None)
    case WorkerDies => Moved(q, None)
  }

  // Applying an outcome, inline or on the drain: verdicts and publication.

  datatype SettleAct = Decide | Verify | Publish | Create | ClearNonce | Recover(readable: bool, exactBinding: bool)
                     | DropRecord | Unmark | Abort

  predicate CanSettle(q: Core, th: Thread, a: SettleAct) {
    match a
    case Decide => th.pc.Decided? && !th.role.Worker?
    case Verify => th.pc.AtVerify? && th.body.Readable?
    case Publish => th.pc.AtPublish? && q.proof.result.None?
    case Create => th.pc.AtCreate?
    case ClearNonce => th.pc.AtClearNonce?
    case Recover(_, _) => th.pc.AtRecover? && th.body.Readable? && q.proof.result.Some?
    case DropRecord => th.pc.AtDropRecord?
    case Unmark => th.pc.AtUnmark?
    case Abort => th.role.Claimer? && !UnderLock(th.pc) && !MidMove(th.pc)
  }

  function DecidePc(th: Thread): Pc
    requires th.pc.Decided?
  {
    match th.pc.out
    case ExistingResult => AtRecover
    case LedgerPending => Finished(th)
    case Defer => AtDeferLink
    case ResultOf(status) =>
      if status.Sent? then AtVerify
      else if status.Unconfirmed? then AtDeferLink
      else AtCreate(status, Processed)
  }

  function SettleStep(q: Core, th: Thread, a: SettleAct): Moved
    requires CanSettle(q, th, a)
  {
    var p := q.proof;
    match a
    case Decide => Goto(q, th, DecidePc(th))
    case Verify =>
      Goto(q, th, if (th.body.order.session, th.body.order.nudge) in p.rows then AtPublish else Finished(th))
    case Publish => Prove(q, Store(p, Sent, th.body), th, AtCreate(Sent, Processed))
    case Create => Prove(q, if p.result.Some? then p else Store(p, th.pc.status, th.body), th, AtFinalLink(th.pc.dest))
    case ClearNonce => Prove(q, p.(nonce := false), th, Finished(th))
    case Recover(readable, exactBinding) =>
      var o := th.body.order;
      var r := p.result.value;
      if !readable || SessionOf(r.body) != o.session then Goto(q, th, Finished(th))
      else if !r.status.Sent? then Goto(q, th, AtFinalLink(Processed))
      else if (o.session, o.nudge) in p.rows && exactBinding
      then Prove(q, p.(result := Some(r.(proven := true))), th, AtFinalLink(Processed))
      else Goto(q, th, Finished(th))
    case DropRecord => Goto(q.(record := None), th, AtUnmark)
    case Unmark => Moved(q.(owner := None), None)
    case Abort => Goto(q, th, AtUnmark)
  }

  // The moves: each is a hard link followed by an unlink.

  datatype MoveAct = FinalLink | FinalUnlink | DeferLink | DeferUnlink | SweepUnlink

  function DestFile(at: Places, d: Dest): Option<File> {
    if d.Processed? then at.processed else at.invalid
  }

  /** Whether the finalizing move has something to do: a fresh destination, the
      same inode already linked there, or a move an earlier pass finished. Any
      other state raises, and the order stays claimed. */
  predicate CanFinal(at: Places, d: Dest) {
    if at.inFlight.Some? then DestFile(at, d).None? || DestFile(at, d).value.inode == at.inFlight.value.inode
    else DestFile(at, d).Some?
  }

  predicate CanMove(q: Core, th: Thread, a: MoveAct) {
    match a
    case FinalLink => th.pc.AtFinalLink? && (CanFinal(q.at, th.pc.dest) || th.pc.dest.Invalid?)
    case FinalUnlink => th.pc.AtFinalUnlink?
    case DeferLink => th.pc.AtDeferLink?
    case DeferUnlink => th.pc.AtDeferUnlink?
    case SweepUnlink => th.pc.AtSweepUnlink?
  }

  function MoveStep(q: Core, th: Thread, a: MoveAct): Moved
    requires CanMove(q, th, a)
  {
    var at := q.at;
    match a
    case FinalLink =>
      if at.inFlight.None? || !CanFinal(at, th.pc.dest) then Goto(q, th, AtClearNonce)
      else if th.pc.dest.Processed? then Place(q, at.(processed := at.inFlight), th, AtFinalUnlink(Processed))
      else Place(q, at.(invalid := at.inFlight), th, AtFinalUnlink(Invalid))
    case FinalUnlink => Place(q, at.(inFlight := None), th, AtClearNonce)
    case DeferLink =>
      if at.inFlight.None? || at.deferred.Some? then Goto(q, th, Finished(th))
      else Place(q, at.(deferred := at.inFlight), th, AtDeferUnlink)
    case DeferUnlink => Place(q, at.(inFlight := None), th, Finished(th))
    case SweepUnlink => Place(q, at.(inFlight := None), th, AtUnmark)
  }

  datatype ThreadAct =
    | ClaimA(c: ClaimAct) | GateA(g: GateAct) | SendA(d: SendAct) | SettleA(f: SettleAct) | MoveA(m: MoveAct)

  predicate CanAct(q: Core, c: Ctx, th: Thread, a: ThreadAct) {
    match a
    case ClaimA(b) => CanClaim(q, th, b)
    case GateA(b) => CanGate(c, th, b)
    case SendA(b) => CanSend(th, b)
    case SettleA(b) => CanSettle(q, th, b)
    case MoveA(b) => CanMove(q, th, b)
  }

  function ActStep(q: Core, c: Ctx, th: Thread, a: ThreadAct): Moved
    requires CanAct(q, c, th, a)
  {
    match a
    case ClaimA(b) => ClaimStep(q, c, th, b)
    case GateA(b) => GateStep(q, c, th, b)
    case SendA(b) => SendStep(q, th, b)
    case SettleA(b) => SettleStep(q, th, b)
    case MoveA(b) => MoveStep(q, th, b)
  }

  // ---------------------------------------------------------------- starting threads, and other processes

  datatype SpawnAct = Reserve | BeginDrain | BeginSweep

  predicate NoRole(threads: map<nat, Thread>, role: Role) {
    forall t :: t in threads ==> threads[t].role != role
  }

  /** The main loop is one thread: it drains one record, or sweeps one claim, at a time. */
  predicate CanSpawn(e: Entry, c: Ctx, a: SpawnAct) {
    match a
    case Reserve => c.phase.Work? && e.core.owner.None?
    case BeginDrain =>
      && c.phase.Drain? && e.core.record.Some? && e.core.at.inFlight.Some? && e.core.at.inFlight.value.body.Readable?
      && NoRole(e.threads, Drainer)
    case BeginSweep =>
      && e.core.at.inFlight.Some?
      && (if c.phase.Sweep?
          then e.core.owner != Some(c.pid) && NoRole(e.threads, Sweeper)    // reclaim: owner dead or unknown
          else c.phase.Drain? && e.core.owner == Some(c.pid)                // abandoned: ours, no record, no worker
               && e.core.record.None? && e.threads == map[])
  }

  function Spawn(q: Core, c: Ctx, a: SpawnAct): (m: Moved)
    requires a.BeginDrain? ==> q.record.Some? && q.at.inFlight.Some?
    ensures m.th.Some?
  {
    match a
    case Reserve => Moved(q.(owner := Some(c.pid)), Some(Thread(Claimer, Garbage, NoRecord, AtClaim)))
    case BeginDrain => Moved(q, Some(Thread(Drainer, q.at.inFlight.value.body, NoRecord, Decided(q.record.value))))
    case BeginSweep =>
      if q.at.orders.Some? then Moved(q, Some(Thread(Sweeper, Garbage, NoRecord, AtUnmark)))
      else Moved(q.(at := q.at.(orders := q.at.inFlight)), Some(Thread(Sweeper, Garbage, NoRecord, AtSweepUnlink)))
  }

  datatype EnvAct = Enqueue(body: Body, inode: nat) | RequeueLink | RequeueUnlink | RequeueDies | DropStale | DropOrphan

  predicate CanEnv(e: Entry, c: Ctx, a: EnvAct) {
    match a
    case Enqueue(_, _) => e.core.at.orders.None?
    case RequeueLink => !e.core.at.requeueing && e.core.at.deferred.Some? && e.core.at.orders.None?
    case RequeueUnlink => e.core.at.requeueing
    case RequeueDies => e.core.at.requeueing
    case DropStale => c.phase.Drain? && e.core.record.Some? && e.core.at.inFlight.None? && NoRole(e.threads, Drainer)
    case DropOrphan => c.phase.Sweep? && e.core.owner.Some? && e.core.owner != Some(c.pid)
                       && e.core.at.inFlight.None? && NoRole(e.threads, Sweeper)
  }

  function EnvStep(q: Core, a: EnvAct): Core {
    var at := q.at;
    match a
    case Enqueue(body, inode) =>
      q.(at := at.(orders := Some(File(inode, body)), enqueues := at.enqueues + 1,
                   first := if at.enqueues == 0 then inode else at.first))
    case RequeueLink => q.(at := at.(orders := at.deferred, requeueing := true))
    case RequeueUnlink => q.(at := at.(deferred := None, requeueing := false))
    case RequeueDies => q.(at := at.(requeueing := false, cuts := at.cuts + 1))
    case DropStale => q.(record := None)
    case DropOrphan => q.(owner := None)
  }

  // ---------------------------------------------------------------- whole system

  datatype Act = ByThread(t: nat, a: ThreadAct) | Start(t: nat, sp: SpawnAct) | Env(v: EnvAct)

  predicate Enabled(e: Entry, c: Ctx, a: Act) {
    match a
    case ByThread(t, b) => t in e.threads && CanAct(e.core, c, e.threads[t], b)
    case Start(t, b) => t !in e.threads && CanSpawn(e, c, b)
    case Env(b) => CanEnv(e, c, b)
  }

  function Install(e: Entry, t: nat, m: Moved): Entry {
    Entry(m.core, if m.th.Some? then e.threads[t := m.th.value] else e.threads - {t})
  }

  function Apply(e: Entry, c: Ctx, a: Act): Entry
    requires Enabled(e, c, a)
  {
    match a
    case ByThread(t, b) => Install(e, t, ActStep(e.core, c, e.threads[t], b))
    case Start(t, b) => Install(e, t, Spawn(e.core, c, b))
    case Env(b) => e.(core := EnvStep(e.core, b))
  }

  datatype Step =
    | On(id: string, act: Act)
    | Crash
    | NextPhase
    | WriteGoal(session: string, goal: Option<Goal>)  // a goals.py mutator, holding the lane lock
    | EnrolGoal(session: string, first: Goal)         // enrolment and transfer successors hold no lock on this lane
    | WriteLife(session: string, life: Life)

  function GoalOf(s: State, session: string): Option<Goal> {
    if session in s.goals then Some(s.goals[session]) else None
  }

  /** A lock file whose owner process is gone is reclaimed by the next acquirer. */
  predicate LockFree(s: State, session: string) {
    session !in s.locks || s.locks[session].pid != s.pid
  }

  /** The lane of the order the acting thread works on. */
  function LaneOf(e: Entry, a: Act): string {
    if a.ByThread? && a.t in e.threads then SessionOf(e.threads[a.t].body) else ""
  }

  function CtxOf(s: State, x: string, a: Act): Ctx {
    var lane := LaneOf(EntryOf(s, x), a);
    Ctx(s.pid, s.phase, GoalOf(s, lane), if lane in s.lives then s.lives[lane] else NoRecord, LockFree(s, lane))
  }

  predicate MainIdle(e: Entry) {
    NoRole(e.threads, Drainer) && NoRole(e.threads, Sweeper)
  }

  /** The drain has consumed every record left by an earlier incarnation. */
  predicate Drained(q: Core, pid: nat) {
    q.record.Some? ==> q.owner == Some(pid)
  }

  predicate IsEnqueue(a: Act) {
    a.Env? && a.v.Enqueue?
  }

  predicate CanStep(s: State, p: Step) {
    match p
    case On(x, a) => Enabled(EntryOf(s, x), CtxOf(s, x, a), a) && (IsEnqueue(a) ==> a.v.inode == s.nextInode)
    case Crash => true
    case NextPhase =>
      && (forall x :: x in s.entries ==> MainIdle(s.entries[x]))
      && (s.phase.Drain? ==> forall x :: x in s.entries ==> Drained(s.entries[x].core, s.pid))
    case WriteGoal(session, _) => LockFree(s, session)
    case EnrolGoal(session, first) => session !in s.goals && !first.guardHold
    case WriteLife(_, _) => true
  }

  predicate SomeMidMove(threads: map<nat, Thread>) {
    exists t :: t in threads && MidMove(threads[t].pc)
  }

  function CrashEntry(e: Entry): Entry {
    Entry(e.core.(at := e.core.at.(cuts := e.core.at.cuts + if SomeMidMove(e.threads) then 1 else 0)), map[])
  }

  function NextLocks(s: State, x: string, a: Act): map<string, Holder> {
    var lane := LaneOf(EntryOf(s, x), a);
    if a.ByThread? && a.a == GateA(Lock) then s.locks[lane := Holder(s.pid, x, a.t)]
    else if a.ByThread? && a.a == GateA(Unlock) then s.locks - {lane}
    else s.locks
  }

  function DoStep(s: State, p: Step): State
    requires CanStep(s, p)
  {
    match p
    case On(x, a) =>
      s.(entries := s.entries[x := Apply(EntryOf(s, x), CtxOf(s, x, a), a)],
         nextInode := s.nextInode + (if IsEnqueue(a) then 1 else 0),
         locks := NextLocks(s, x, a))
    case Crash => s.(pid := s.pid + 1, phase := Sweep, entries := map x | x in s.entries :: CrashEntry(s.entries[x]))
    case NextPhase => s.(phase := match s.phase case Sweep => Drain case Drain => Work case Work => Sweep)
    case WriteGoal(session, goal) =>
      s.(goals := if goal.Some? then s.goals[session := goal.value] else s.goals - {session})
    case EnrolGoal(session, first) => s.(goals := s.goals[session := first])
    case WriteLife(session, life) => s.(lives := s.lives[session := life])
  }

  /** A run from the empty queue: one step leads from each state to the next. */
  ghost predicate IsRun(steps: seq<Step>, states: seq<State>) {
    && |states| == |steps| + 1
    && states[0] == Init
    && forall i :: 0 <= i < |steps| ==> CanStep(states[i], steps[i]) && states[i + 1] == DoStep(states[i], steps[i])
  }
}
