/** The interview nonce and the enrolment transaction of src/chitra/goals_cli.py, for one session.

    Issuers hold only the nonce lock and may act between any two steps of an enrolment, which holds the goals lock
    throughout and the nonce lock while it settles; other goal writers wait for the goals lock. A token is drawn fresh.
    A crash ends the enrolling process between two writes and frees its locks. */
module Enrolment {
  import opened Basics
  import opened Goals
  import opened GoalRuns
  import opened GoalEffects

  datatype Nonce = Nonce(value: nat, request: string, consumed: bool)

  /** The goals document; None when the file does not exist. */
  type Doc = Option<seq<Record>>

  function Records(doc: Doc): seq<Record> { if doc.Some? then doc.value else [] }

  /** What the caller brings: the request it enrols under and the token it answered. */
  datatype Asked = Asked(request: string, answered: nat)

  datatype Phase =
    | Free
    | Checking(asked: Asked, before: Doc)
    | Parsed(asked: Asked, seen: Nonce, before: Doc)
    | Committed(asked: Asked, seen: Nonce, before: Doc, env: Env, rec: Record)
    | Replaced(seen: Nonce, before: Doc, env: Env, rec: Record)

  /** A finished enrolment: whether it returned a record, and the files as it left them. */
  datatype Ended =
    | Enrolled(asked: Asked, token: nat, before: Doc, after: Doc, nonce: Option<Nonce>, env: Env, rec: Record)
    | Failed(before: Doc, after: Doc)

  datatype State = State(doc: Doc, nonce: Option<Nonce>, issued: nat, phase: Phase, log: seq<Ended>)

  datatype Act =
    | Issue(request: string)
    | OtherWrite(doc: Doc)
    | Begin(asked: Asked)
    | Check
    | Commit(env: Env, rec: Record)
    | Settle
    | RollBack
    | Crash

  function End(s: State, e: Ended): State { s.(phase := Free, log := s.log + [e]) }

  function Fail(s: State, before: Doc): State { End(s, Failed(before, s.doc)) }

  /** The stored nonce is reissued unless it was issued for the same request. */
  function IssueStep(s: State, request: string): State {
    if s.nonce.Some? && s.nonce.value.request == request then s
    else s.(nonce := Some(Nonce(s.issued, request, false)), issued := s.issued + 1)
  }

  /** The nonce is read without its lock and must be this request's, unconsumed, and the one answered. */
  function CheckStep(s: State): State
    requires s.phase.Checking?
  {
    var p := s.phase;
    if s.nonce.None? || s.nonce.value.request != p.asked.request || s.nonce.value.consumed ||
      s.nonce.value.value != p.asked.answered then Fail(s, p.before)
    else s.(phase := Parsed(p.asked, s.nonce.value, p.before))
  }

  function CommitStep(rules: Rules, s: State, env: Env, rec: Record): State
    requires s.phase.Parsed?
  {
    var out := Upsert(rules, env, Records(s.doc), rec, Routine.(strategic := true));
    if out.refused.Some? then Fail(s, s.phase.before)
    else s.(doc := Some(out.records), phase := Committed(s.phase.asked, s.phase.seen, s.phase.before, env, rec))
  }

  /** Under the nonce lock: consume the nonce if it is still the one that was checked. */
  function SettleStep(s: State): State
    requires s.phase.Committed?
  {
    var p := s.phase;
    if s.nonce.None? || s.nonce.value.value != p.seen.value then s.(phase := Replaced(p.seen, p.before, p.env, p.rec))
    else
      var consumed := Some(p.seen.(consumed := true));
      End(s.(nonce := consumed), Enrolled(p.asked, p.seen.value, p.before, s.doc, consumed, p.env, p.rec))
  }

  /** One step for the session `ref`; an act that is not enabled changes nothing. */
  function Step(rules: Rules, ref: string, s: State, act: Act): State {
    match act
    case Issue(request) => IssueStep(s, request)
    case OtherWrite(doc) => if s.phase.Free? then s.(doc := doc) else s
    case Begin(asked) =>
      if !s.phase.Free? then s
      else if Find(Records(s.doc), ref).Some? then Fail(s, s.doc)
      else s.(phase := Checking(asked, s.doc))
    case Check => if s.phase.Checking? then CheckStep(s) else s
    case Commit(env, rec) => if s.phase.Parsed? && rec.ref == ref then CommitStep(rules, s, env, rec) else s
    case Settle => if s.phase.Committed? then SettleStep(s) else s
    case RollBack => if s.phase.Replaced? then Fail(s.(doc := s.phase.before), s.phase.before) else s
    case Crash => s.(phase := Free)
  }

  function Run(rules: Rules, ref: string, doc: Doc, acts: seq<Act>): State {
    if acts == [] then State(doc, None, 0, Free, [])
    else Step(rules, ref, Run(rules, ref, doc, acts[..|acts| - 1]), acts[|acts| - 1])
  }

  // ---------------------------------------------------------------- invariant

  /** The lane was not stored and now is, as a first upsert of the record leaves it, and every other lane is as it
      was. */
  ghost predicate Stored(before: Doc, after: Doc, env: Env, rec: Record) {
    var next := Find(Records(after), rec.ref);
    && Find(Records(before), rec.ref).None? && next.Some? && EnrolLeaves(env, next.value, UpsertGoal(rec, false))
    && forall other :: other != rec.ref ==> Find(Records(after), other) == Find(Records(before), other)
  }

  /** The promise of a finished enrolment: the goal stored on the very nonce the caller answered for its request, now
      consumed, or nothing at all. */
  ghost predicate AllOrNothing(e: Ended) {
    match e
    case Enrolled(asked, token, before, after, nonce, env, rec) =>
      nonce == Some(Nonce(asked.answered, asked.request, true)) && token == asked.answered &&
        Stored(before, after, env, rec)
    case Failed(before, after) => after == before
  }

  ghost predicate LogOk(log: seq<Ended>) { forall e :: e in log ==> AllOrNothing(e) }

  /** No token enrols twice. */
  predicate SingleUse(log: seq<Ended>) {
    forall j, k :: 0 <= j < k < |log| && log[j].Enrolled? && log[k].Enrolled? ==> log[j].token != log[k].token
  }

  predicate Spent(log: seq<Ended>, token: nat) { exists e :: e in log && e.Enrolled? && e.token == token }

  /** A checked nonce is unspent, and the file still holds exactly it or a later one. */
  predicate Current(s: State, seen: Nonce) {
    && !seen.consumed && seen.value < s.issued && !Spent(s.log, seen.value)
    && (s.nonce.Some? && s.nonce.value.value == seen.value ==> s.nonce.value == seen)
  }

  ghost predicate PhaseOk(ref: string, s: State) {
    match s.phase
    case Free => true
    case Checking(_, before) => s.doc == before && Find(Records(before), ref).None?
    case Parsed(asked, seen, before) =>
      s.doc == before && Find(Records(before), ref).None? && Current(s, seen) &&
        seen == Nonce(asked.answered, asked.request, false)
    case Committed(asked, seen, before, env, rec) =>
      && Stored(before, s.doc, env, rec) && rec.ref == ref && Current(s, seen)
      && seen == Nonce(asked.answered, asked.request, false)
    case Replaced(seen, before, env, rec) => Stored(before, s.doc, env, rec) && rec.ref == ref && Current(s, seen)
  }

  /** Spent tokens stay consumed for as long as the file shows them, and are never issued again. */
  ghost predicate NonceOk(s: State) {
    && (s.nonce.Some? ==> s.nonce.value.value < s.issued)
    && (forall t: nat :: Spent(s.log, t) ==>
        t < s.issued && (s.nonce.Some? && s.nonce.value.value == t ==> s.nonce.value.consumed))
  }

  ghost predicate Inv(ref: string, s: State) { LogOk(s.log) && SingleUse(s.log) && NonceOk(s) && PhaseOk(ref, s) }

  lemma SpentGrows(log: seq<Ended>, e: Ended, t: nat)
    ensures Spent(log + [e], t) <==> Spent(log, t) || (e.Enrolled? && e.token == t)
  {
    assert forall x :: x in log + [e] <==> x in log || x == e;
  }

  lemma FailKeeps(ref: string, s: State, before: Doc)
    requires Inv(ref, s) && s.doc == before
    ensures Inv(ref, Fail(s, before))
  {
    var e := Failed(before, s.doc);
    forall t: nat ensures Spent(s.log + [e], t) <==> Spent(s.log, t) { SpentGrows(s.log, e, t); }
    assert forall x :: x in s.log + [e] <==> x in s.log || x == e;
  }

  lemma SettleKeeps(ref: string, s: State)
    requires Inv(ref, s) && s.phase.Committed?
    ensures Inv(ref, SettleStep(s))
  {
    var p := s.phase;
    if s.nonce.Some? && s.nonce.value.value == p.seen.value {
      var consumed := Some(p.seen.(consumed := true));
      var e := Enrolled(p.asked, p.seen.value, p.before, s.doc, consumed, p.env, p.rec);
      forall t: nat ensures Spent(s.log + [e], t) <==> Spent(s.log, t) || t == p.seen.value { SpentGrows(s.log, e, t); }
      assert forall x :: x in s.log + [e] <==> x in s.log || x == e;
      forall k | 0 <= k < |s.log| && s.log[k].Enrolled? ensures s.log[k].token != p.seen.value {
        assert s.log[k] in s.log;
      }
    }
  }

  lemma CommitKeeps(rules: Rules, ref: string, s: State, env: Env, rec: Record)
    requires Inv(ref, s) && s.phase.Parsed? && rec.ref == ref
    ensures Inv(ref, CommitStep(rules, s, env, rec))
  {
    var p := Routine.(strategic := true);
    var out := Upsert(rules, env, Records(s.doc), rec, p);
    if out.refused.Some? { FailKeeps(ref, s, s.phase.before); }
    else { CommitStores(rules, env, s.doc, rec); }
  }

  lemma CommitStores(rules: Rules, env: Env, doc: Doc, rec: Record)
    requires Find(Records(doc), rec.ref).None?
    requires Upsert(rules, env, Records(doc), rec, Routine.(strategic := true)).refused.None?
    ensures Stored(doc, Some(Upsert(rules, env, Records(doc), rec, Routine.(strategic := true)).records), env, rec)
  {
    var p := Routine.(strategic := true);
    EnrolEffect(env, UpsertGoal(rec, false));
    forall other ensures Find(Upsert(rules, env, Records(doc), rec, p).records, other) ==
                         if other == rec.ref then Some(Goals.Stored(env, Records(doc), rec, p))
                         else Find(Records(doc), other)
    {
      WriteEffect(rules, env, Records(doc), rec, p, other);
    }
  }

  lemma StepKeeps(rules: Rules, ref: string, s: State, act: Act)
    requires Inv(ref, s)
    ensures Inv(ref, Step(rules, ref, s, act))
  {
    match act
    case Begin(asked) =>
      if s.phase.Free? && Find(Records(s.doc), ref).Some? { FailKeeps(ref, s, s.doc); }
    case Check => if s.phase.Checking? { FailKeeps(ref, s, s.phase.before); }
    case Commit(env, rec) => if s.phase.Parsed? && rec.ref == ref { CommitKeeps(rules, ref, s, env, rec); }
    case Settle => if s.phase.Committed? { SettleKeeps(ref, s); }
    case RollBack => if s.phase.Replaced? { FailKeeps(ref, s.(doc := s.phase.before, phase := Free), s.phase.before); }
    case _ =>
  }

  lemma {:induction false} InvAlways(rules: Rules, ref: string, doc: Doc, acts: seq<Act>)
    ensures Inv(ref, Run(rules, ref, doc, acts))
  {
    if acts != [] {
      InvAlways(rules, ref, doc, acts[..|acts| - 1]);
      StepKeeps(rules, ref, Run(rules, ref, doc, acts[..|acts| - 1]), acts[|acts| - 1]);
    }
  }

  /** For every interleaving, each enrolment that returns or raises has either stored the goal and left the nonce it was
      checked against consumed, or left the goals document as it found it; and no token enrols twice. */
  lemma EnrolmentIsAtomic(rules: Rules, ref: string, doc: Doc, acts: seq<Act>)
    ensures forall e :: e in Run(rules, ref, doc, acts).log ==> AllOrNothing(e)
    ensures SingleUse(Run(rules, ref, doc, acts).log)
  {
    InvAlways(rules, ref, doc, acts);
  }

  /** Consuming never overwrites a nonce issued in the meantime: the file held exactly the checked nonce. */
  lemma ConsumesOnlyWhatWasChecked(rules: Rules, ref: string, doc: Doc, acts: seq<Act>)
    requires Run(rules, ref, doc, acts).phase.Committed?
    ensures var s := Run(rules, ref, doc, acts);
            SettleStep(s).nonce == s.nonce ||
              (s.nonce == Some(s.phase.seen) && SettleStep(s).nonce == Some(s.phase.seen.(consumed := true)))
  {
    InvAlways(rules, ref, doc, acts);
  }

  // ---------------------------------------------------------------- what each call achieves

  /** After an issue the file holds a nonce of that request: the stored one if it already was, and otherwise a fresh
      unconsumed token that no enrolment was made on. Nothing else changes. */
  lemma IssueAnswersTheRequest(rules: Rules, ref: string, doc: Doc, acts: seq<Act>, request: string)
    ensures var s := Run(rules, ref, doc, acts);
            var t := Step(rules, ref, s, Issue(request));
            && t.doc == s.doc && t.phase == s.phase && t.log == s.log && t.nonce.Some? &&
              t.nonce.value.request == request
            && if s.nonce.Some? && s.nonce.value.request == request then t.nonce == s.nonce
               else !t.nonce.value.consumed && !Spent(s.log, t.nonce.value.value)
                    && (s.nonce.Some? ==> t.nonce.value.value != s.nonce.value.value)
  {
    InvAlways(rules, ref, doc, acts);
  }

  /** What an enrolment of `rec` needs of the files: no goal of that lane, the nonce it answers, issued for its
      request and not consumed, and a record the store enrols. */
  predicate Enrollable(rules: Rules, s: State, asked: Asked, env: Env, rec: Record) {
    && Find(Records(s.doc), rec.ref).None? && s.nonce == Some(Nonce(asked.answered, asked.request, false))
    && EnrolOk(rules, env, Records(s.doc), rec)
  }

  lemma UpsertsIff(rules: Rules, env: Env, records: seq<Record>, rec: Record)
    requires Find(records, rec.ref).None?
    ensures Upsert(rules, env, records, rec, Routine.(strategic := true)).refused.None? <==>
              EnrolOk(rules, env, records, rec)
  {
    assert Registered(env.registry, rec.anchor.items) == Vouched(env.registry, rec.anchor.items);
    assert LaneConflict(records, rec.ref, LaneOf(rec.ref)) <==>
              exists r :: r in records && r.ref != rec.ref && r.anchor.lane == LaneOf(rec.ref);
  }

  /** One enrolment with nothing in between. */
  function Undisturbed(rules: Rules, s: State, asked: Asked, env: Env, rec: Record): State {
    Step(rules, rec.ref,
         Step(rules, rec.ref, Step(rules, rec.ref, Step(rules, rec.ref, s, Begin(asked)), Check),
              Commit(env, rec)), Settle)
  }

  /** An enrolment that passed its checks, with nothing in between. */
  lemma ParsedEnrolsIff(rules: Rules, s: State, env: Env, rec: Record)
    requires s.phase.Parsed? && s.nonce == Some(s.phase.seen) && s.phase.before == s.doc
    requires Find(Records(s.doc), rec.ref).None?
    ensures var t := Step(rules, rec.ref, Step(rules, rec.ref, s, Commit(env, rec)), Settle);
            && t.phase.Free? && |t.log| == |s.log| + 1 && t.log[..|s.log|] == s.log
            && (t.log[|s.log|].Enrolled? <==> EnrolOk(rules, env, Records(s.doc), rec))
            && if EnrolOk(rules, env, Records(s.doc), rec)
               then Stored(s.doc, t.doc, env, rec) && t.nonce == Some(s.phase.seen.(consumed := true))
               else t.doc == s.doc && t.nonce == s.nonce
  {
    UpsertsIff(rules, env, Records(s.doc), rec);
    if EnrolOk(rules, env, Records(s.doc), rec) { CommitStores(rules, env, s.doc, rec); }
  }

  /** From any state of any run, it ends, and enrols exactly when the files allow it; otherwise both are as they
      were. */
  lemma UndisturbedEnrolsIff(rules: Rules, doc: Doc, acts: seq<Act>, asked: Asked, env: Env, rec: Record)
    requires Run(rules, rec.ref, doc, acts).phase.Free?
    ensures var s := Run(rules, rec.ref, doc, acts);
            var t := Undisturbed(rules, s, asked, env, rec);
            && t.phase.Free? && |t.log| == |s.log| + 1 && t.log[..|s.log|] == s.log
            && (t.log[|s.log|].Enrolled? <==> Enrollable(rules, s, asked, env, rec))
            && if Enrollable(rules, s, asked, env, rec)
               then Stored(s.doc, t.doc, env, rec) && t.nonce == Some(Nonce(asked.answered, asked.request, true))
               else t.doc == s.doc && t.nonce == s.nonce
  {
    var s := Run(rules, rec.ref, doc, acts);
    var parsed := Step(rules, rec.ref, Step(rules, rec.ref, s, Begin(asked)), Check);
    if parsed.phase.Parsed? { ParsedEnrolsIff(rules, parsed, env, rec); }
  }

  /** However an enrolment was disturbed, once its goal is committed it completes exactly when the file still holds
      the nonce it checked, and is otherwise undone: the goals document is as the enrolment found it and the new nonce
      is untouched. */
  lemma CommittedSettlesIff(rules: Rules, ref: string, doc: Doc, acts: seq<Act>)
    requires Run(rules, ref, doc, acts).phase.Committed?
    ensures var s := Run(rules, ref, doc, acts);
            var t := Step(rules, ref, Step(rules, ref, s, Settle), RollBack);
            && t.phase.Free? && |t.log| == |s.log| + 1 && t.log[..|s.log|] == s.log
            && (t.log[|s.log|].Enrolled? <==> s.nonce == Some(s.phase.seen))
            && if s.nonce == Some(s.phase.seen)
               then t.doc == s.doc && t.nonce == Some(s.phase.seen.(consumed := true)) &&
                 t.log[|s.log|].asked == s.phase.asked
                    && t.log[|s.log|].rec == s.phase.rec
               else t.doc == s.phase.before && t.nonce == s.nonce
  {
    InvAlways(rules, ref, doc, acts);
  }

  lemma RunGrows(rules: Rules, ref: string, doc: Doc, acts: seq<Act>, act: Act)
    ensures Run(rules, ref, doc, acts + [act]) == Step(rules, ref, Run(rules, ref, doc, acts), act)
  {
    assert (acts + [act])[..|acts|] == acts;
  }

  /** The goals document as the enrolment under way found it. */
  function Before(p: Phase): Doc
    requires !p.Free?
  {
    p.before
  }

  lemma CrashLeaves(ref: string, s: State)
    requires PhaseOk(ref, s) && !s.phase.Free?
    ensures s.doc == Before(s.phase) <==> !s.phase.Committed? && !s.phase.Replaced?
    ensures s.phase.Committed? || s.phase.Replaced? ==>
              && s.phase.rec.ref == ref && Stored(Before(s.phase), s.doc, s.phase.env, s.phase.rec)
              && !Spent(s.log, s.phase.seen.value) && s.nonce != Some(s.phase.seen.(consumed := true))
  {
  }

  /** A crash of the enrolling process leaves the goals document as it was exactly until the goal is committed. From
      then on, whether or not the nonce has been found replaced, it leaves the goal stored and the nonce it was
      checked against unspent. */
  lemma CrashIsCleanIff(rules: Rules, ref: string, doc: Doc, acts: seq<Act>)
    requires !Run(rules, ref, doc, acts).phase.Free?
    ensures var s := Run(rules, ref, doc, acts);
            var after := Step(rules, ref, s, Crash);
            && (after.doc == Before(s.phase) <==> !s.phase.Committed? && !s.phase.Replaced?)
            && (s.phase.Committed? || s.phase.Replaced? ==>
                  && s.phase.rec.ref == ref && Stored(Before(s.phase), after.doc, s.phase.env, s.phase.rec)
                  && !Spent(after.log, s.phase.seen.value) && after.nonce != Some(s.phase.seen.(consumed := true)))
  {
    InvAlways(rules, ref, doc, acts);
    CrashLeaves(ref, Run(rules, ref, doc, acts));
  }

  /** The goal is stored, nothing is under way, and no enrolment has ended. */
  predicate LeftBehind(rules: Rules, ref: string, acts: seq<Act>, nonce: Nonce) {
    var s := Run(rules, ref, None, acts);
    s.phase.Free? && s.log == [] && Find(Records(s.doc), ref).Some? && s.nonce == Some(nonce)
  }

  /** An enrolment of `rec`, up to its commit. */
  lemma ReachCommit(rules: Rules, env: Env, rec: Record) returns (acts: seq<Act>)
    requires Refusal(rules, env, [], rec, Routine.(strategic := true)).None?
    ensures var s := Run(rules, rec.ref, None, acts);
            && s.phase == Committed(Asked("q", 0), Nonce(0, "q", false), None, env, rec) &&
              s.nonce == Some(Nonce(0, "q", false))
            && s.issued == 1 && s.log == [] && Find(Records(s.doc), rec.ref).Some?
  {
    var ref := rec.ref;
    RunGrows(rules, ref, None, [], Issue("q"));
    var a1 := [] + [Issue("q")];
    RunGrows(rules, ref, None, a1, Begin(Asked("q", 0)));
    var a2 := a1 + [Begin(Asked("q", 0))];
    RunGrows(rules, ref, None, a2, Check);
    var a3 := a2 + [Check];
    assert Run(rules, ref, None, a3).phase == Parsed(Asked("q", 0), Nonce(0, "q", false), None);
    RunGrows(rules, ref, None, a3, Commit(env, rec));
    acts := a3 + [Commit(env, rec)];
    FindAfterPut([], Goals.Stored(env, [], rec, Routine.(strategic := true)), ref);
  }

  /** A crash between the commit and the nonce write: the goal is stored on a nonce that was not consumed. */
  lemma CrashLeavesTheNonce(rules: Rules, env: Env, rec: Record)
    requires Refusal(rules, env, [], rec, Routine.(strategic := true)).None?
    ensures exists acts :: LeftBehind(rules, rec.ref, acts, Nonce(0, "q", false))
  {
    var acts := ReachCommit(rules, env, rec);
    RunGrows(rules, rec.ref, None, acts, Crash);
    assert LeftBehind(rules, rec.ref, acts + [Crash], Nonce(0, "q", false));
  }

  /** A new request, the settling that finds the nonce replaced, and a crash. */
  lemma ReplacedThenCrash(rules: Rules, ref: string, s: State)
    requires s.phase.Committed? && s.phase.seen == Nonce(0, "q", false)
    requires s.nonce == Some(s.phase.seen) && s.issued == 1
    ensures var issued := Step(rules, ref, s, Issue("r"));
            Step(rules, ref, Step(rules, ref, issued, Settle), Crash) ==
            s.(nonce := Some(Nonce(1, "r", false)), issued := 2, phase := Free)
  {
    assert "q"[0] != "r"[0];
  }

  /** A crash after the nonce was found replaced and before the roll-back: the goal is stored although the request it
      answers was withdrawn, and its nonce is gone. */
  lemma CrashSkipsTheRollBack(rules: Rules, env: Env, rec: Record)
    requires Refusal(rules, env, [], rec, Routine.(strategic := true)).None?
    ensures exists acts :: LeftBehind(rules, rec.ref, acts, Nonce(1, "r", false))
  {
    var acts := ReachCommit(rules, env, rec);
    var issued := acts + [Issue("r")];
    var settled := issued + [Settle];
    RunGrows(rules, rec.ref, None, acts, Issue("r"));
    RunGrows(rules, rec.ref, None, issued, Settle);
    RunGrows(rules, rec.ref, None, settled, Crash);
    ReplacedThenCrash(rules, rec.ref, Run(rules, rec.ref, None, acts));
    assert LeftBehind(rules, rec.ref, settled + [Crash], Nonce(1, "r", false));
  }
}
