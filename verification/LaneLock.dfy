/** `LaneLock` of src/chitra/dispatch.py: one lock file per session, created
    exclusively, holding the owner's pid, reclaimed when that pid is dead.

    The model is one session's lock file under every interleaving of file-level
    steps. A lock object belongs to a process; processes may terminate. */
module LaneLock {
  import opened Basics

  /** The file is created empty and the pid is written afterwards; an empty file
      parses as nothing and is never reclaimed. */
  datatype Content = Empty | Owner(pid: nat)

  /** `inode` tells one creation of the file from the next. */
  datatype LockFile = LockFile(inode: nat, content: Content)

  datatype Pc =
    | Idle                    // not acquiring; `_acquired` is false
    | Trying                  // about to read the file for stale reclaim
    | ToUnlink                // read a dead owner; about to unlink
    | ToRecreate              // unlinked; about to create exclusively
    | ToCreate                // not stale; about to create exclusively
    | ToWrite(inode: nat)     // created; about to write the pid
    | Held(inode: nat)        // `_acquired` is true

  datatype Lock = Lock(pid: nat, pc: Pc)

  datatype State = State(file: Option<LockFile>, locks: map<nat, Lock>, dead: set<nat>, nextInode: nat)

  const Init: State := State(None, map[], {}, 0)

  datatype Step =
    | New(l: nat, pid: nat)   // construct a lock object
    | Begin(l: nat)
    | Read(l: nat)
    | Unlink(l: nat) | Recreate(l: nat)
    | ReclaimAtOnce(l: nat)   // read, unlink and create of a stale reclaim as one step
    | Create(l: nat) | Write(l: nat) | GiveUp(l: nat)
    | Release(l: nat)
    | Terminate(pid: nat)

  predicate AtPc(s: State, l: nat, pc: Pc) {
    l in s.locks && s.locks[l].pc == pc
  }

  predicate Stale(s: State) {
    s.file.Some? && s.file.value.content.Owner? && s.file.value.content.pid in s.dead
  }

  predicate CanStep(s: State, p: Step) {
    match p
    case New(l, pid) => l !in s.locks && pid !in s.dead
    case Begin(l) => AtPc(s, l, Idle)
    case Read(l) => AtPc(s, l, Trying)
    case Unlink(l) => AtPc(s, l, ToUnlink)
    case Recreate(l) => AtPc(s, l, ToRecreate)
    case ReclaimAtOnce(l) => AtPc(s, l, Trying) && Stale(s)
    case Create(l) => AtPc(s, l, ToCreate)
    case Write(l) => l in s.locks && s.locks[l].pc.ToWrite?
    case GiveUp(l) => AtPc(s, l, Trying)
    case Release(l) => l in s.locks && s.locks[l].pc.Held?
    case Terminate(pid) => pid !in s.dead
  }

  function Goto(s: State, l: nat, pc: Pc): State
    requires l in s.locks
  {
    s.(locks := s.locks[l := s.locks[l].(pc := pc)])
  }

  /** The exclusive create: a fresh inode, still empty. */
  function Created(s: State, l: nat): State
    requires l in s.locks
  {
    Goto(s, l, ToWrite(s.nextInode)).(file := Some(LockFile(s.nextInode, Empty)), nextInode := s.nextInode + 1)
  }

  function DoStep(s: State, p: Step): State
    requires CanStep(s, p)
  {
    match p
    case New(l, pid) => s.(locks := s.locks[l := Lock(pid, Idle)])
    case Begin(l) => Goto(s, l, Trying)
    case Read(l) => Goto(s, l, if Stale(s) then ToUnlink else ToCreate)
    case Unlink(l) => if s.file.None? then Goto(s, l, ToCreate) else Goto(s, l, ToRecreate).(file := None)
    case Recreate(l) => if s.file.None? then Created(s, l) else Goto(s, l, Idle)   // FileExistsError escapes
    case ReclaimAtOnce(l) => Created(s, l)
    case Create(l) => if s.file.None? then Created(s, l) else Goto(s, l, Trying)
    case Write(l) =>
      var ino := s.locks[l].pc.inode;
      var s1 := Goto(s, l, Held(ino));
      // the write reaches the created inode, which the path may no longer name
      if s.file.Some? && s.file.value.inode == ino then s1.(file := Some(LockFile(ino, Owner(s.locks[l].pid)))) else s1
    case GiveUp(l) => Goto(s, l, Idle)
    case Release(l) => Goto(s, l, Idle).(file := None)
    case Terminate(pid) =>
      s.(dead := s.dead + {pid}, locks := map l | l in s.locks && s.locks[l].pid != pid :: s.locks[l])
  }

  ghost predicate IsRun(steps: seq<Step>, states: seq<State>) {
    && |states| == |steps| + 1
    && states[0] == Init
    && forall i :: 0 <= i < |steps| ==> CanStep(states[i], steps[i]) && states[i + 1] == DoStep(states[i], steps[i])
  }

  // ---------------------------------------------------------------- mutual exclusion

  predicate Inside(pc: Pc) {
    pc.ToWrite? || pc.Held?
  }

  /** Whoever is inside owns the file the path names now. */
  predicate Owns(s: State, k: Lock)
    requires Inside(k.pc)
  {
    s.file == Some(LockFile(k.pc.inode, if k.pc.Held? then Owner(k.pid) else Empty))
  }

  ghost predicate Inv(s: State) {
    && (forall l :: l in s.locks ==> s.locks[l].pid !in s.dead)
    && (forall l :: l in s.locks && Inside(s.locks[l].pc) ==> Owns(s, s.locks[l]))
    && (forall l, m :: l in s.locks && m in s.locks && Inside(s.locks[l].pc) && Inside(s.locks[m].pc) ==> l == m)
  }

  /** The unlink of a reclaim removes the file of a lock object that is inside. */
  ghost predicate Steals(s: State, p: Step) {
    p.Unlink? && exists m :: m in s.locks && Inside(s.locks[m].pc)
  }

  lemma InvByStep(s: State, p: Step)
    requires Inv(s) && CanStep(s, p) && !Steals(s, p)
    ensures Inv(DoStep(s, p))
  {
    if s.file.None? || Stale(s) { NobodyInside(s); }
  }

  lemma NobodyInside(s: State)
    requires Inv(s) && (s.file.None? || Stale(s))
    ensures forall l :: l in s.locks ==> !Inside(s.locks[l].pc)
  {
    forall l | l in s.locks ensures !Inside(s.locks[l].pc) {
      var k := s.locks[l];
      if Inside(k.pc) && Owns(s, k) { assert false; }
    }
  }

  /** No step before position `n` steals. */
  ghost predicate NoTheft(steps: seq<Step>, states: seq<State>, n: nat)
    requires |states| == |steps| + 1 && n <= |steps|
  {
    forall i :: 0 <= i < n ==> !Steals(states[i], steps[i])
  }

  lemma InvAlong(steps: seq<Step>, states: seq<State>, n: nat)
    requires IsRun(steps, states) && n < |states| && NoTheft(steps, states, n)
    ensures Inv(states[n])
  {
    if n > 0 {
      InvAlong(steps, states, n - 1);
      InvByStep(states[n - 1], steps[n - 1]);
    }
  }

  /** While no unlink steals, at most one lock object holds the lane, and the lock file names its process. */
  lemma MutualExclusion(steps: seq<Step>, states: seq<State>, n: nat, l: nat, m: nat)
    requires IsRun(steps, states) && n < |states| && NoTheft(steps, states, n)
    requires l in states[n].locks && m in states[n].locks && states[n].locks[l].pc.Held? && states[n].locks[m].pc.Held?
    ensures l == m
    ensures states[n].file.Some? && states[n].file.value.content == Owner(states[n].locks[l].pid)
  {
    InvAlong(steps, states, n);
  }

  // ---------------------------------------------------------------- the condition is exact

  ghost predicate Reachable(s: State) {
    exists steps, states :: IsRun(steps, states) && states[|steps|] == s
  }

  lemma Reach(s: State, p: Step)
    requires Reachable(s) && CanStep(s, p)
    ensures Reachable(DoStep(s, p))
  {
    var steps, states :| IsRun(steps, states) && states[|steps|] == s;
    var steps', states' := steps + [p], states + [DoStep(s, p)];
    assert IsRun(steps', states') && states'[|steps'|] == DoStep(s, p);
  }

  /** Two lock objects of live processes hold the lane at once. */
  ghost predicate TwoHolders(s: State) {
    exists l, m :: l in s.locks && m in s.locks && l != m && s.locks[l].pc.Held? && s.locks[m].pc.Held?
                   && s.locks[l].pid !in s.dead && s.locks[m].pid !in s.dead
  }

  ghost predicate IsPath(s: State, path: seq<Step>, t: State)
    decreases |path|
  {
    if path == [] then s == t else CanStep(s, path[0]) && IsPath(DoStep(s, path[0]), path[1..], t)
  }

  predicate Quiet(path: seq<Step>) { forall p :: p in path ==> !p.Unlink? }

  /** Two holders follow without any further unlink: the harm is already done. */
  ghost predicate Doomed(s: State) {
    exists path, t :: IsPath(s, path, t) && Quiet(path) && TwoHolders(t)
  }

  lemma PathGrows(s: State, path: seq<Step>, t: State, p: Step)
    requires IsPath(s, path, t) && CanStep(t, p)
    ensures IsPath(s, path + [p], DoStep(t, p))
    decreases |path|
  {
    if path == [] {
      assert path + [p] == [p] && [p][1..] == [];
    } else {
      assert (path + [p])[1..] == path[1..] + [p];
      PathGrows(DoStep(s, path[0]), path[1..], t, p);
    }
  }

  lemma InvAlongPath(s: State, path: seq<Step>, t: State)
    requires Inv(s) && IsPath(s, path, t) && Quiet(path)
    ensures Inv(t)
    decreases |path|
  {
    if path != [] {
      assert path[0] in path;
      InvByStep(s, path[0]);
      InvAlongPath(DoStep(s, path[0]), path[1..], t);
    }
  }

  lemma ExclusiveIsNotDoomed(s: State)
    requires Inv(s)
    ensures !Doomed(s)
  {
    forall path, t | IsPath(s, path, t) && Quiet(path) ensures !TwoHolders(t) {
      InvAlongPath(s, path, t);
    }
  }

  /** After the theft the thief creates its own file, and the lock object it stole from notices nothing. */
  lemma TheftDooms(s: State, l: nat, m: nat)
    requires Inv(s) && CanStep(s, Unlink(l)) && m in s.locks && Inside(s.locks[m].pc)
    ensures Doomed(DoStep(s, Unlink(l)))
  {
    assert l != m && Owns(s, s.locks[m]);
    var s1 := DoStep(s, Unlink(l));
    var s2 := DoStep(s1, Recreate(l));
    var s3 := DoStep(s2, Write(l));
    assert IsPath(s1, [], s1);
    PathGrows(s1, [], s1, Recreate(l));
    PathGrows(s1, [] + [Recreate(l)], s2, Write(l));
    var path := [] + [Recreate(l)] + [Write(l)];
    assert s3.locks[l].pc.Held? && s3.locks[m] == s.locks[m];
    if s.locks[m].pc.Held? {
      assert TwoHolders(s3);
    } else {
      PathGrows(s1, path, s3, Write(m));
      var s4 := DoStep(s3, Write(m));
      assert s4.locks[l].pc.Held? && s4.locks[m].pc.Held?;
      assert TwoHolders(s4);
    }
  }

  /** The exact boundary: a step of a run without theft so far leads into a state from which two holders follow without
      any further unlink if and only if it steals. */
  lemma TheftIsTheCondition(steps: seq<Step>, states: seq<State>, i: nat)
    requires IsRun(steps, states) && i < |steps| && NoTheft(steps, states, i)
    ensures Doomed(states[i + 1]) <==> Steals(states[i], steps[i])
  {
    InvAlong(steps, states, i);
    if Steals(states[i], steps[i]) {
      var m :| m in states[i].locks && Inside(states[i].locks[m].pc);
      TheftDooms(states[i], steps[i].l, m);
    } else {
      InvByStep(states[i], steps[i]);
      ExclusiveIsNotDoomed(states[i + 1]);
    }
  }

  // ---------------------------------------------------------------- conditions on the schedule

  /** The unlink meets a file other than a dead owner's: what reading the file once more would tell. */
  predicate MeetsFresh(s: State, p: Step) {
    p.Unlink? && s.file.Some? && !Stale(s)
  }

  lemma TheftMeetsFresh(s: State, p: Step)
    requires Inv(s) && Steals(s, p)
    ensures MeetsFresh(s, p)
  {
    if s.file.None? || Stale(s) { NobodyInside(s); }
  }

  /** A stale reclaim whose read, unlink and create other processes can interleave with. */
  predicate SplitsReclaim(s: State, p: Step) {
    p.Read? && Stale(s)
  }

  /** Either no owner process ever terminates, or every stale reclaim's read, unlink and create run as one step, or no
      unlink meets a file that is no longer the dead owner's. */
  ghost predicate Assumption(steps: seq<Step>, states: seq<State>)
    requires |states| == |steps| + 1
  {
    || (forall i :: 0 <= i < |steps| ==> !steps[i].Terminate?)
    || (forall i :: 0 <= i < |steps| ==> !SplitsReclaim(states[i], steps[i]))
    || (forall i :: 0 <= i < |steps| ==> !MeetsFresh(states[i], steps[i]))
  }

  predicate NoReader(s: State) { forall l :: l in s.locks ==> !s.locks[l].pc.ToUnlink? }

  lemma ReaderByStep(s: State, p: Step)
    requires NoReader(s) && CanStep(s, p) && !SplitsReclaim(s, p)
    ensures NoReader(DoStep(s, p))
  {
  }

  /** Where every reclaim runs as one step nobody waits to unlink. */
  lemma NobodyUnlinks(steps: seq<Step>, states: seq<State>, n: nat)
    requires IsRun(steps, states) && n < |states|
    requires forall i :: 0 <= i < |steps| ==> !SplitsReclaim(states[i], steps[i])
    ensures NoReader(states[n])
  {
    if n > 0 {
      NobodyUnlinks(steps, states, n - 1);
      ReaderByStep(states[n - 1], steps[n - 1]);
    }
  }

  lemma NobodyDies(steps: seq<Step>, states: seq<State>, n: nat)
    requires IsRun(steps, states) && n < |states|
    requires forall i :: 0 <= i < |steps| ==> !steps[i].Terminate?
    ensures states[n].dead == {}
  {
    if n > 0 { NobodyDies(steps, states, n - 1); }
  }

  /** Each of the three conditions on the schedule rules out every theft. */
  lemma AssumptionSuffices(steps: seq<Step>, states: seq<State>, n: nat)
    requires IsRun(steps, states) && n <= |steps| && Assumption(steps, states)
    ensures NoTheft(steps, states, n)
  {
    if n > 0 {
      AssumptionSuffices(steps, states, n - 1);
      InvAlong(steps, states, n - 1);
      if Steals(states[n - 1], steps[n - 1]) {
        TheftMeetsFresh(states[n - 1], steps[n - 1]);
        NoneMeetsFresh(steps, states, n - 1);
      }
    }
  }

  /** Under one of these conditions the lane is exclusive in every state of the run. */
  lemma ExclusiveOnSchedule(steps: seq<Step>, states: seq<State>, n: nat, l: nat, m: nat)
    requires IsRun(steps, states) && n < |states| && Assumption(steps, states)
    requires l in states[n].locks && m in states[n].locks && states[n].locks[l].pc.Held? && states[n].locks[m].pc.Held?
    ensures l == m
  {
    AssumptionSuffices(steps, states, n);
    MutualExclusion(steps, states, n, l, m);
  }

  lemma NoneMeetsFresh(steps: seq<Step>, states: seq<State>, n: nat)
    requires IsRun(steps, states) && n < |steps| && Assumption(steps, states)
    ensures !MeetsFresh(states[n], steps[n])
  {
    if forall i :: 0 <= i < |steps| ==> !steps[i].Terminate? {
      forall i | 0 <= i < |steps| ensures !SplitsReclaim(states[i], steps[i]) { NobodyDies(steps, states, i); }
      NobodyUnlinks(steps, states, n);
    } else if forall i :: 0 <= i < |steps| ==> !SplitsReclaim(states[i], steps[i]) {
      NobodyUnlinks(steps, states, n);
    }
  }

  // ---------------------------------------------------------------- what one attempt achieves

  function Try(s: State, p: Step): State { if CanStep(s, p) then DoStep(s, p) else s }

  /** One pass of the acquire loop with no other process in between. */
  function Attempt(s: State, l: nat): State {
    var looked := Try(Try(s, Begin(l)), Read(l));
    Try(Try(Try(Try(looked, Unlink(l)), Recreate(l)), Create(l)), Write(l))
  }

  /** It acquires exactly when there is no file or a dead owner's, and then leaves a new file that names its process;
      otherwise the file is as it was and the next pass follows. No other lock object is touched either way. */
  lemma AttemptAcquiresIff(s: State, l: nat)
    requires AtPc(s, l, Idle)
    ensures var t := Attempt(s, l);
            && l in t.locks && t.locks.Keys == s.locks.Keys && t.dead == s.dead
            && (forall m :: m in s.locks && m != l ==> t.locks[m] == s.locks[m]) && t.locks[l].pid == s.locks[l].pid
            && (t.locks[l].pc.Held? <==>
                s.file.None? || (s.file.value.content.Owner? && s.file.value.content.pid in s.dead))
            && if t.locks[l].pc.Held? then t.file == Some(LockFile(s.nextInode, Owner(s.locks[l].pid)))
               else t.file == s.file && t.locks[l].pc == Trying
  {
  }

  /** A holder that releases leaves no file, so the next attempt of any other lock object acquires. */
  lemma ReleaseFreesTheLane(s: State, l: nat, m: nat)
    requires AtPc(s, m, Idle) && CanStep(s, Release(l))
    ensures DoStep(s, Release(l)).file == None && AtPc(DoStep(s, Release(l)), l, Idle)
    ensures Attempt(DoStep(s, Release(l)), m).locks[m].pc.Held?
  {
    AttemptAcquiresIff(DoStep(s, Release(l)), m);
  }

  /** Nobody is inside, nobody has read a dead owner, and the file is an empty one. */
  ghost predicate Wedged(s: State) {
    && s.file.Some? && s.file.value.content.Empty? && NoReader(s)
    && forall l :: l in s.locks ==> !Inside(s.locks[l].pc)
  }

  lemma WedgedForGood(s: State, path: seq<Step>, t: State)
    requires Wedged(s) && IsPath(s, path, t)
    ensures Wedged(t)
    decreases |path|
  {
    if path != [] { WedgedForGood(DoStep(s, path[0]), path[1..], t); }
  }

  /** The owner dies. If it had written its pid, the next attempt of any lock object reclaims the lane; if it had only
      created the file, no attempt does, and unless a reader of an earlier dead owner is still on its way to unlink,
      no lock object ever holds the lane again. */
  lemma DeadOwnerIsReclaimedIff(steps: seq<Step>, states: seq<State>, n: nat, l: nat, m: nat)
    requires IsRun(steps, states) && n < |steps| && NoTheft(steps, states, n)
    requires l in states[n].locks && Inside(states[n].locks[l].pc) && steps[n] == Terminate(states[n].locks[l].pid)
    requires AtPc(states[n], m, Idle) && states[n].locks[m].pid != states[n].locks[l].pid
    ensures var s, t := states[n], states[n + 1];
            && (Attempt(t, m).locks[m].pc.Held? <==> s.locks[l].pc.Held?)
            && (s.locks[l].pc.ToWrite? && NoReader(s) ==>
                  forall path, u :: IsPath(t, path, u) ==> forall k :: k in u.locks ==> !u.locks[k].pc.Held?)
  {
    InvAlong(steps, states, n);
    var s, t := states[n], states[n + 1];
    AttemptAcquiresIff(t, m);
    if s.locks[l].pc.ToWrite? && NoReader(s) {
      assert Wedged(t);
      forall path, u | IsPath(t, path, u) ensures forall k :: k in u.locks ==> !u.locks[k].pc.Held? {
        WedgedForGood(t, path, u);
      }
    }
  }

  /** Lock 0 of process 7 has created the file. */
  lemma ReachCreated()
    ensures Reachable(State(Some(LockFile(0, Empty)), map[0 := Lock(7, ToWrite(0))], {}, 1))
  {
    var none: seq<Step> := [];
    assert IsRun(none, [Init]) && [Init][|none|] == Init;
    Reach(Init, New(0, 7));
    var s := DoStep(Init, New(0, 7));
    Reach(s, Begin(0)); s := DoStep(s, Begin(0));
    Reach(s, Read(0)); s := DoStep(s, Read(0));
    Reach(s, Create(0)); s := DoStep(s, Create(0));
    assert s.locks == map[0 := Lock(7, ToWrite(0))];
  }

  /** Such a crash is possible: the owner creates the file and dies before its pid is in it. */
  lemma CrashCanWedge()
    ensures exists s :: Reachable(s) && Wedged(s)
  {
    ReachCreated();
    var s := State(Some(LockFile(0, Empty)), map[0 := Lock(7, ToWrite(0))], {}, 1);
    Reach(s, Terminate(7)); s := DoStep(s, Terminate(7));
    assert s.locks == map[] && Wedged(s);
  }

  // ---------------------------------------------------------------- a run with two holders

  /** Lock 0's owner, process 7, dies holding the lane. */
  lemma ReachDeadOwner()
    ensures Reachable(State(Some(LockFile(0, Owner(7))), map[], {7}, 1))
  {
    ReachCreated();
    var s := State(Some(LockFile(0, Empty)), map[0 := Lock(7, ToWrite(0))], {}, 1);
    Reach(s, Write(0)); s := DoStep(s, Write(0));
    Reach(s, Terminate(7)); s := DoStep(s, Terminate(7));
    assert s.locks == map[];
  }

  /** Locks 1 and 2 of two live processes both read its pid. */
  lemma ReachTwoReaders()
    ensures Reachable(State(Some(LockFile(0, Owner(7))), map[1 := Lock(8, ToUnlink), 2 := Lock(9, ToUnlink)], {7}, 1))
  {
    ReachDeadOwner();
    var s := State(Some(LockFile(0, Owner(7))), map[], {7}, 1);
    Reach(s, New(1, 8)); s := DoStep(s, New(1, 8));
    Reach(s, New(2, 9)); s := DoStep(s, New(2, 9));
    Reach(s, Begin(1)); s := DoStep(s, Begin(1));
    Reach(s, Begin(2)); s := DoStep(s, Begin(2));
    Reach(s, Read(1)); s := DoStep(s, Read(1));
    Reach(s, Read(2)); s := DoStep(s, Read(2));
    assert s.locks == map[1 := Lock(8, ToUnlink), 2 := Lock(9, ToUnlink)];
  }

  /** Two live processes can hold one lane: after an owner died, both read its
      pid, one reclaims, and the other unlinks the new file. */
  lemma SplitReclaimAdmitsTwo()
    ensures exists s :: Reachable(s) && TwoHolders(s)
  {
    ReachTwoReaders();
    var s := State(Some(LockFile(0, Owner(7))), map[1 := Lock(8, ToUnlink), 2 := Lock(9, ToUnlink)], {7}, 1);
    Reach(s, Unlink(1)); s := DoStep(s, Unlink(1));
    Reach(s, Recreate(1)); s := DoStep(s, Recreate(1));
    Reach(s, Write(1)); s := DoStep(s, Write(1));
    assert s.locks[1].pc == Held(1) && s.locks[2].pc.ToUnlink?;
    Reach(s, Unlink(2)); s := DoStep(s, Unlink(2));
    Reach(s, Recreate(2)); s := DoStep(s, Recreate(2));
    Reach(s, Write(2)); s := DoStep(s, Write(2));
    assert s.locks[1].pc.Held? && s.locks[2].pc.Held? && s.locks[1].pid == 8 && s.locks[2].pid == 9 && s.dead == {7};
    assert TwoHolders(s);
  }
}
