/** The promises of the goal store over whole runs, and where a transfer is not atomic. */
module GoalTheorems {
  import opened Basics
  import opened Text
  import opened CompletionGate
  import opened Goals
  import opened GoalRuns

  datatype Call = Call(env: Env, op: Op)

  /** The store after the calls, from empty. */
  function Exec(rules: Rules, calls: seq<Call>): seq<Record> {
    if calls == [] then []
    else var last := calls[|calls| - 1]; Apply(rules, last.env, Exec(rules, calls[..|calls| - 1]), last.op).records
  }

  /** The journals after the calls: they read each call and whether it was accepted, never a record. */
  function Journals(rules: Rules, calls: seq<Call>): Diary {
    if calls == [] then map[]
    else
      var last, front := calls[|calls| - 1], calls[..|calls| - 1];
      Noted(last.env, Journals(rules, front), last.op, Apply(rules, last.env, Exec(rules, front), last.op))
  }

  lemma {:induction false} SoundAlways(rules: Rules, calls: seq<Call>)
    ensures Sound(rules, Exec(rules, calls))
  {
    if calls != [] {
      var last := calls[|calls| - 1];
      SoundAlways(rules, calls[..|calls| - 1]);
      StepKeepsSound(rules, last.env, Exec(rules, calls[..|calls| - 1]), last.op);
    }
  }

  lemma {:induction false} FollowsAlways(rules: Rules, calls: seq<Call>)
    ensures AllFollow(Exec(rules, calls), Journals(rules, calls))
  {
    if calls != [] {
      var last, front := calls[|calls| - 1], calls[..|calls| - 1];
      FollowsAlways(rules, front);
      StepFollows(rules, last.env, Exec(rules, front), last.op, Journals(rules, front));
    }
  }

  // ---------------------------------------------------------------- main results

  /** Done is proven: no run leaves a record awaiting verification, and a record is pending close only with a
      stored passing, concrete proof of each frozen item; the board then counts every item as proven. */
  lemma DoneIsAlwaysProven(rules: Rules, calls: seq<Call>, r: Record)
    requires r in Exec(rules, calls)
    ensures !r.status.DonePendingVerification?
    ensures r.status.DonePendingClose? ==> r.anchor.items != [] && AllProven(rules.concrete, r.anchor.items, r.proofs)
    ensures r.status.DonePendingClose? ==> forall i :: i in r.anchor.items ==> Checked(i, r.proofs)
  {
    SoundAlways(rules, calls);
    assert Good(rules, r);
    if r.status.DonePendingClose? { GateImpliesBoard(rules.concrete, r.anchor.items, r.proofs); }
  }

  /** What the board shows for a stored record. */
  method BoardOfStored(rules: Rules, calls: seq<Call>, r: Record, clauses: nat) returns (proven: nat, total: nat)
    requires r in Exec(rules, calls) && r.status.DonePendingClose?
    ensures proven == total == |r.anchor.items| > 0
  {
    DoneIsAlwaysProven(rules, calls, r);
    var tracked;
    proven, tracked, total := BuildDoneWhen(r.anchor.items, r.proofs, clauses);
  }

  /** One goal per session and per lane, and the frozen contract stays intact. */
  lemma LanesStayDistinct(rules: Rules, calls: seq<Call>)
    ensures Pairwise(Exec(rules, calls))
    ensures forall r :: r in Exec(rules, calls) ==>
              Enrolled(rules, r.anchor, r.direction.doneWhen) && r.anchor.lane == LaneOf(r.ref)
  {
    SoundAlways(rules, calls);
    assert forall r :: r in Exec(rules, calls) ==> Good(rules, r);
  }

  /** History is the whole sequence of directions: the strategic entries followed by the current values are
      the values enrolled and redirected to, the version counts them, and the anchor is the enrolled one. */
  lemma HistoryIsComplete(rules: Rules, calls: seq<Call>, r: Record)
    requires r in Exec(rules, calls)
    ensures r.ref in Journals(rules, calls)
    ensures Follows(r, Journals(rules, calls)[r.ref])
  {
    FollowsAlways(rules, calls);
  }

  lemma FollowsFromOne(r: Record, j: Journal)
    requires Follows(r, j) && j.version == 1 && j.history == []
    ensures r.version == 1 + |Priors(r.history)| && Priors(r.history) + [Trim(r.direction)] == j.values
    ensures r.anchor == j.anchor
  {
    assert Priors(j.history) + j.values == j.values;
    assert |Priors(r.history) + [Trim(r.direction)]| == |j.values|;
  }

  /** For a lane enrolled at version 1 with no history the count and the sequence are exact. */
  lemma VersionCountsRevisions(rules: Rules, calls: seq<Call>, r: Record)
    requires r in Exec(rules, calls)
    requires r.ref in Journals(rules, calls) && Journals(rules, calls)[r.ref].version == 1
    requires Journals(rules, calls)[r.ref].history == []
    ensures r.version == 1 + |Priors(r.history)|
    ensures Priors(r.history) + [Trim(r.direction)] == Journals(rules, calls)[r.ref].values
    ensures r.anchor == Journals(rules, calls)[r.ref].anchor
  {
    HistoryIsComplete(rules, calls, r);
    FollowsFromOne(r, Journals(rules, calls)[r.ref]);
  }

  // ---------------------------------------------------------------- transfer

  lemma NoConflictWithin(records: seq<Record>, prev: Record)
    requires Pairwise(records) && prev in records
    ensures !LaneConflict(records, prev.ref, prev.anchor.lane)
  {
    var k :| 0 <= k < |records| && records[k] == prev;
    forall r | r in records && r.ref != prev.ref ensures r.anchor.lane != prev.anchor.lane {
      var m :| 0 <= m < |records| && records[m] == r;
    }
  }

  /** A lane name with surrounding whitespace is stored as it is but compared stripped. */
  predicate Padded(lane: string) { !Blank(lane) && Strip(lane) != lane }

  lemma SameItems(items: seq<Item>)
    ensures ItemsMatch(items, items)
  {
  }

  lemma SameRewrite(rules: Rules, prev: Record, rec: Record)
    requires Frozen(rules, prev)
    requires rec.anchor == prev.anchor && rec.direction == prev.direction && rec.source == prev.source
    requires rec.proofs == prev.proofs
    ensures RewriteRefusal(rules, prev, rec, Routine).None? <==> !Padded(prev.anchor.lane)
  {
    SameItems(prev.anchor.items);
    assert SameStrategy(prev, rec);
  }

  /** A rewrite that keeps the anchor, the direction and the proofs is refused exactly on a padded lane. */
  lemma TacticalRewriteAccepted(rules: Rules, env: Env, records: seq<Record>, prev: Record, rec: Record)
    requires Sound(rules, records) && Find(records, rec.ref) == Some(prev)
    requires rec.anchor == prev.anchor && rec.direction == prev.direction && rec.source == prev.source
    requires rec.proofs == prev.proofs
    requires IsDone(rec.status) ==> rec.status == prev.status
    ensures Refusal(rules, env, records, rec, Routine).None? <==> !Padded(prev.anchor.lane)
  {
    NoConflictWithin(records, prev);
    assert Good(rules, prev);
    SameRewrite(rules, prev, rec);
  }

  lemma ConflictAfterPut(records: seq<Record>, prev: Record, r: Record, ref: string, lane: string)
    requires prev in records && r.ref == prev.ref && r.anchor.lane == prev.anchor.lane
    requires forall x :: x in records && x.ref == prev.ref ==> x == prev
    ensures LaneConflict(Put(records, r), ref, lane) <==> LaneConflict(records, ref, lane)
  {
    var put := Put(records, r);
    assert forall x :: x in put <==> (x in records && x.ref != r.ref) || x == r;
    if LaneConflict(records, ref, lane) {
      var x :| x in records && x.ref != ref && x.anchor.lane == lane;
      assert x in put || (x == prev && r in put);
    }
  }

  lemma SuccessorAccepted(rules: Rules, env: Env, held: seq<Record>, second: Record)
    requires Find(held, second.ref).None? && Enrolled(rules, second.anchor, second.direction.doneWhen)
    requires second.anchor.lane == "" && second.status.Idle?
    ensures Refusal(rules, env, held, second, Routine).None? <==>
            Registered(env.registry, second.anchor.items) && !LaneConflict(held, second.ref, LaneOf(second.ref))
  {
    assert Blank("");
  }

  /** The original is on hold naming a successor. */
  predicate HeldFor(out: Outcome, ref: string, successor: string) {
    exists r :: r in out.records && r.ref == ref && r.status.Held? && r.links.transferredTo == successor
  }

  predicate Present(out: Outcome, ref: string) { exists r :: r in out.records && r.ref == ref }

  /** The hold landed without its successor. */
  predicate Stranded(out: Outcome, ref: string, successor: string) {
    out.refused.Some? && HeldFor(out, ref, successor) && !Present(out, successor)
  }

  predicate Transferred(out: Outcome, ref: string, successor: string) {
    out.refused.None? && HeldFor(out, ref, successor) && Present(out, successor)
  }

  predicate SuccessorAdmissible(env: Env, records: seq<Record>, items: seq<Item>, successor: string) {
    Registered(env.registry, items) && !LaneConflict(records, successor, LaneOf(successor))
  }

  lemma HoldStored(env: Env, records: seq<Record>, prev: Record, first: Record)
    requires Find(records, first.ref) == Some(prev) && first.links.transferredTo != ""
    ensures var r := Stored(env, records, first, Routine);
            r.ref == prev.ref && r.anchor == prev.anchor && r.status == first.status &&
              r.links.transferredTo == first.links.transferredTo
  {
  }

  lemma OnlyOne(records: seq<Record>, prev: Record)
    requires Pairwise(records) && prev in records
    ensures forall x :: x in records && x.ref == prev.ref ==> x == prev
  {
    var k :| 0 <= k < |records| && records[k] == prev;
    forall x | x in records && x.ref == prev.ref ensures x == prev {
      var m :| 0 <= m < |records| && records[m] == x;
    }
  }

  /** The two writes of a transfer, from the state both checks were made in. */
  lemma BothWrites(rules: Rules, env: Env, records: seq<Record>, prev: Record, first: Record, second: Record)
    requires Sound(rules, records) && Find(records, first.ref) == Some(prev)
    requires first.anchor == prev.anchor && first.direction == prev.direction && first.source == prev.source
    requires first.proofs == prev.proofs
    requires first.status.Held? && first.links.transferredTo == second.ref != "" && second.ref !in Refs(records)
    requires Enrolled(rules, second.anchor, second.direction.doneWhen) && second.anchor.lane == ""
    requires second.status.Idle?
    ensures var out := Carry(rules, env, records, WriteBoth(first, second));
            && (Padded(prev.anchor.lane) ==> out.refused.Some? && out.records == records)
            && (!Padded(prev.anchor.lane) ==>
                  if SuccessorAdmissible(env, records, second.anchor.items, second.ref)
                  then Transferred(out, first.ref, second.ref)
                  else Stranded(out, first.ref, second.ref))
  {
    TacticalRewriteAccepted(rules, env, records, prev, first);
    HoldStored(env, records, prev, first);
    var stored := Stored(env, records, first, Routine);
    AfterHold(rules, env, records, prev, stored, second);
  }

  lemma AfterHold(rules: Rules, env: Env, records: seq<Record>, prev: Record, stored: Record, second: Record)
    requires Sound(rules, records) && prev in records && stored.ref == prev.ref && stored.anchor == prev.anchor
    requires stored.status.Held? && stored.links.transferredTo == second.ref && second.ref !in Refs(records)
    requires Enrolled(rules, second.anchor, second.direction.doneWhen) && second.anchor.lane == ""
    requires second.status.Idle?
    ensures var out := Upsert(rules, env, Put(records, stored), second, Routine);
            if SuccessorAdmissible(env, records, second.anchor.items, second.ref)
            then Transferred(out, prev.ref, second.ref)
            else Stranded(out, prev.ref, second.ref)
  {
    var held := Put(records, stored);
    assert stored in held && prev.ref in Refs(records);
    assert forall x :: x in held ==> x.ref in Refs(records);
    OnlyOne(records, prev);
    ConflictAfterPut(records, prev, stored, second.ref, LaneOf(second.ref));
    SuccessorAccepted(rules, env, held, second);
    SecondWrite(rules, env, held, prev.ref, second);
  }

  lemma SecondWrite(rules: Rules, env: Env, held: seq<Record>, ref: string, second: Record)
    requires HeldFor(Outcome(held, None), ref, second.ref) && ref != second.ref && Find(held, second.ref).None?
    ensures var out := Upsert(rules, env, held, second, Routine);
            if Refusal(rules, env, held, second, Routine).None? then Transferred(out, ref, second.ref)
            else Stranded(out, ref, second.ref)
  {
    var out := Upsert(rules, env, held, second, Routine);
    var r :| r in held && r.ref == ref && r.status.Held? && r.links.transferredTo == second.ref;
    assert r in out.records;
    if Refusal(rules, env, held, second, Routine).None? { assert Stored(env, held, second, Routine) in out.records; }
  }

  lemma SuccessorNamed(ref: string, taken: set<string>, attempt: nat)
    requires 1 <= attempt <= 100 && SuccessorRef(ref, taken, attempt).Some?
    ensures SuccessorRef(ref, taken, attempt).value != ""
    decreases 100 - attempt
  {
    if Candidate(ref, attempt) in taken { SuccessorNamed(ref, taken, attempt + 1); }
    else { CandidateNamed(ref, attempt); }
  }

  lemma CandidateNamed(ref: string, attempt: nat)
    requires 1 <= attempt < 100
    ensures Candidate(ref, attempt) != ""
  {
    var parts := Split(ref, ':');
    var lane := LaneOf(ref) + if attempt == 1 then "-xfer" else "-xfer" + Number(attempt);
    var host, pane := if |parts| >= 2 then parts[0] else "", if |parts| >= 3 then parts[2] else "";
    assert [host, lane, pane][1..] == [lane, pane] && [lane, pane][1..] == [pane];
    assert lane in NonEmpty([lane, pane]) && lane in NonEmpty([host, lane, pane]);
    JoinNonEmpty(NonEmpty([host, lane, pane]), ":");
  }

  /** A transfer whose own checks pass is all or nothing exactly when the registry still vouches for the frozen
      items and no other lane has the successor's name; otherwise the hold lands without its successor. A lane
      with a padded name refuses both writes. */
  lemma TransferIsAtomicIff(rules: Rules, env: Env, calls: seq<Call>, op: Op)
    requires op.Transfer? && PlanOf(rules, env, Exec(rules, calls), op).WriteBoth?
    ensures var records := Exec(rules, calls);
            var prev, plan := Find(records, op.ref), PlanOf(rules, env, records, op);
            var out := Apply(rules, env, records, op);
            && prev.Some?
            && (Padded(prev.value.anchor.lane) ==> out.refused.Some? && out.records == records)
            && (!Padded(prev.value.anchor.lane) ==>
                  if SuccessorAdmissible(env, records, prev.value.anchor.items, plan.second.ref)
                  then Transferred(out, op.ref, plan.second.ref)
                  else Stranded(out, op.ref, plan.second.ref))
  {
    var records := Exec(rules, calls);
    var plan := PlanOf(rules, env, records, op);
    SoundAlways(rules, calls);
    TransferPlan(rules, env, records, op);
    SuccessorNamed(op.ref, Refs(records), 1);
    BothWrites(rules, env, records, Find(records, op.ref).value, plan.first, plan.second);
  }

  // ---------------------------------------------------------------- a stranded lane

  function SampleItem(pin: string): Item { Item("1", "ok", "v", "r", pin) }

  function SampleRecord(): Record {
    Record("l", Direction("a a a a a a", "ok", "", "", ""), "s", Working,
           Anchor("", "", "",
                  Some(Interview("n", "t", seq(64, _ => 'a'),
                                 ["source:x", "source:x", "source:x", "source:x"])), [SampleItem("")]),
           1, [], Tactics("", "", "", [], [], "", ""), Links("", ""), [], "", "")
  }

  function SampleRules(): Rules { Rules(_ => true, _ => true, _ => true, _ => true) }

  lemma SampleEnrolled(pin: string)
    ensures Enrolled(SampleRules(), SampleRecord().anchor.(items := [SampleItem(pin)]), "ok")
  {
    var items := [SampleItem(pin)];
    assert Strip("1") == "1" && Strip("ok") == "ok" && Strip("v") == "v" && Strip("r") == "r" && Strip("n") == "n" &&
           Strip("x") == "x";
    assert "source:x"[7..] == "x" && "source:x"[..7] == "source:";
    assert Texts(items) == ["ok"];
    assert Render(items) == "ok";
  }

  lemma FirstEnrolment(rules: Rules, env: Env, rec: Record)
    requires Worded(rec) && NewRefusal(rules, env, rec).None? && !IsDone(rec.status)
    ensures Exec(rules, [Call(env, UpsertGoal(rec, false))]) == [NewRecord(env, rec)]
  {
    var calls := [Call(env, UpsertGoal(rec, false))];
    assert calls[..0] == [] && Exec(rules, []) == [];
    assert Refusal(rules, env, [], rec, Routine.(clearAsks := false)).None?;
    assert Without([], rec.ref) == [];
  }

  lemma SoleTransfer(rules: Rules, env: Env, r: Record, op: Op)
    requires op.Transfer? && op.ref == r.ref && ArgumentsOk(rules, op) && r.links.transferredTo == ""
    requires Candidate(r.ref, 1) != r.ref
    requires Worded(Successor(r, Candidate(r.ref, 1), op))
    requires Enrolled(rules, r.anchor.(lane := "", doneWhen := "", at := ""), r.direction.doneWhen)
    ensures PlanOf(rules, env, [r], op).WriteBoth?
  {
    assert Find([r], op.ref) == Some(r);
    assert Refs([r]) == {r.ref};
    assert SuccessorRef(op.ref, Refs([r]), 1) == Some(Candidate(r.ref, 1));
  }

  lemma StripsToItself(s: string)
    requires s != [] && !IsSpace(s[0]) && !IsSpace(s[|s| - 1])
    ensures Strip(s) == s && !Blank(s)
  {
  }

  lemma OneMoreWord(s: string)
    ensures WordCount("a " + s) == 1 + WordCount(s)
  {
    assert ("a " + s)[1..] == " " + s && (" " + s)[1..] == s;
  }

  lemma SampleNames()
    ensures LaneOf("l") == "l" && Candidate("l", 1) == "l-xfer"
  {
    var none := "l"[1..];
    assert none == "" && Split(none, ':') == [""];
    assert ['l'] + "" == "l";
    assert Split("l", ':') == ["l"];
    assert "l" + "-xfer" == "l-xfer";
    assert ["", "l-xfer", ""][1..] == ["l-xfer", ""] && ["l-xfer", ""][1..] == [""] && [""][1..] == [];
    assert NonEmpty([""]) == [] && NonEmpty(["l-xfer", ""]) == ["l-xfer"] && NonEmpty(["", "l-xfer", ""]) == ["l-xfer"];
  }

  lemma SampleWords()
    ensures WordCount("a a a a a a") == 6 && !Blank("a a a a a a")
  {
    OneMoreWord("a");
    OneMoreWord("a a");
    OneMoreWord("a a a");
    OneMoreWord("a a a a");
    OneMoreWord("a a a a a");
    assert "a " + "a" == "a a" && "a " + "a a" == "a a a" && "a " + "a a a" == "a a a a";
    assert "a " + "a a a a" == "a a a a a" && "a " + "a a a a a" == "a a a a a a";
    assert "a"[1..] == "";
    StripsToItself("a a a a a a");
  }

  function SampleTransfer(): Op { Transfer("l", "codex", "d", "r", "") }

  const Before := Env("t", map["v" := "d"], map[])
  const After := Env("t", map[], map[])

  lemma EnrolledAsSuccessor(rules: Rules, env: Env, rec: Record)
    requires Enrolled(rules, rec.anchor, rec.direction.doneWhen)
    ensures Enrolled(rules, NewAnchor(env, rec).(lane := "", doneWhen := "", at := ""), rec.direction.doneWhen)
  {
    RenderPinned(env.registry, rec.anchor.items);
    PinnedItemsOk(rules, env.registry, rec.anchor.items);
  }

  /** A record that enrols, and can then be asked to transfer. */
  predicate Transferable(rules: Rules, before: Env, rec: Record, op: Op) {
    && Worded(rec) && NewRefusal(rules, before, rec).None? && !IsDone(rec.status) && rec.links.transferredTo == ""
    && op.Transfer? && op.ref == rec.ref && ArgumentsOk(rules, op)
    && Candidate(rec.ref, 1) != rec.ref && !Padded(LaneOf(rec.ref)) &&
      Worded(Successor(NewRecord(before, rec), Candidate(rec.ref, 1), op))
  }

  /** Any lane enrolled while its validators are registered and transferred after they have left the registry
      is held with nothing recorded to pick it up. */
  lemma LostRegistryStrands(rules: Rules, before: Env, after: Env, rec: Record, op: Op)
    requires Transferable(rules, before, rec, op) && after.registry == map[]
    ensures Stranded(Apply(rules, after, Exec(rules, [Call(before, UpsertGoal(rec, false))]), op), op.ref,
                     Candidate(rec.ref, 1))
  {
    var calls, r := [Call(before, UpsertGoal(rec, false))], NewRecord(before, rec);
    FirstEnrolment(rules, before, rec);
    EnrolledAsSuccessor(rules, before, rec);
    SoleTransfer(rules, after, r, op);
    TransferIsAtomicIff(rules, after, calls, op);
    TransferPlan(rules, after, [r], op);
    assert Refs([r]) == {r.ref};
    assert r.anchor.items[0] in r.anchor.items;
  }

  lemma SampleLane()
    ensures Candidate(SampleRecord().ref, 1) == "l-xfer" && !Padded(LaneOf(SampleRecord().ref))
  {
    SampleNames();
    StripsToItself("l");
  }

  lemma SampleTransferable()
    ensures Transferable(SampleRules(), Before, SampleRecord(), SampleTransfer())
  {
    SampleLane();
    SampleWorded();
    SampleAdmitted();
    SampleSuccessorWorded();
    SampleArguments();
  }

  /** And there is such a lane. */
  lemma SampleStrands()
    ensures exists rules, before, after, rec, op ::
              Transferable(rules, before, rec, op)
              && Stranded(Apply(rules, after, Exec(rules, [Call(before, UpsertGoal(rec, false))]), op), op.ref,
                          Candidate(rec.ref, 1))
  {
    SampleTransferable();
    LostRegistryStrands(SampleRules(), Before, After, SampleRecord(), SampleTransfer());
  }

  lemma SampleWorded()
    ensures Worded(SampleRecord())
  {
    SampleWords();
    StripsToItself("ok");
    StripsToItself("s");
  }

  lemma SampleArguments()
    ensures ArgumentsOk(SampleRules(), SampleTransfer())
  {
    StripsToItself("d");
    StripsToItself("r");
  }

  lemma SampleAdmitted()
    ensures NewRefusal(SampleRules(), Before, SampleRecord()).None?
  {
    SampleEnrolled("");
    assert SampleRecord().anchor.(items := [SampleItem("")]) == SampleRecord().anchor;
    assert Blank("");
  }

  lemma SampleSuccessorWorded()
    ensures Worded(Successor(NewRecord(Before, SampleRecord()), "l-xfer", SampleTransfer()))
  {
    SampleWords();
    StripsToItself("ok");
    StripsToItself("d");
    assert "s" + "; digest:" + "d" == "s; digest:d";
    StripsToItself("s; digest:d");
  }
}
