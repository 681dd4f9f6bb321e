/** The completion gate of src/chitra/completion_gate.py, the store-backed receipt
    check of src/chitra/validation_receipts.py, and the board's view of the same
    proofs in src/boardd/state.py.

    Whether a citation names an independently locatable fact is a parameter
    `concrete`. */
module CompletionGate {
  import opened Basics

  /** One frozen completion condition; `pin` is the validator definition's digest. */
  datatype Item = Item(id: string, text: string, validator: string, receipt: string, pin: string)

  datatype Evidence = Evidence(artifact: bool, citation: string, itemId: Option<string>,
                               receipt: Option<string>, validator: Option<string>, pass: bool)

  type Concrete = Evidence -> bool

  /** The paths of verified PASS receipts, by receipt name and validator. */
  type Receipts = map<(string, string), string>

  datatype Issue =
    | NoReceipt(id: string) | WrongReceipt(id: string) | WrongValidator(id: string) | NotPassing(id: string)

  // ---------------------------------------------------------------- specification

  predicate Names(e: Evidence, i: Item) {
    e.itemId == Some(i.id) && e.receipt == Some(i.receipt) && e.validator == Some(i.validator)
  }

  /** One proof names the item, its receipt and its validator, passes, and cites a fact. */
  predicate Satisfies(concrete: Concrete, e: Evidence, i: Item) {
    Names(e, i) && e.pass && concrete(e)
  }

  predicate Proven(concrete: Concrete, i: Item, evidence: seq<Evidence>) {
    exists e :: e in evidence && Satisfies(concrete, e, i)
  }

  predicate AllProven(concrete: Concrete, items: seq<Item>, evidence: seq<Evidence>) {
    forall i :: i in items ==> Proven(concrete, i, evidence)
  }

  // ---------------------------------------------------------------- the gate

  function Keep(evidence: seq<Evidence>, p: Evidence -> bool): (r: seq<Evidence>)
    ensures forall e :: e in r <==> e in evidence && p(e)
  {
    if evidence == [] then []
    else Keep(evidence[..|evidence| - 1], p) + if p(evidence[|evidence| - 1]) then [evidence[|evidence| - 1]] else []
  }

  /** The gap that keeps one item from being proven, by successive filters. */
  function Gap(concrete: Concrete, i: Item, evidence: seq<Evidence>): (r: Option<Issue>)
  {
    var forItem := Keep(evidence, (e: Evidence) => e.itemId == Some(i.id));
    if forItem == [] then Some(NoReceipt(i.id))
    else
      var named := Keep(forItem, (e: Evidence) => e.receipt == Some(i.receipt));
      if named == [] then Some(WrongReceipt(i.id))
      else
        var validated := Keep(named, (e: Evidence) => e.validator == Some(i.validator));
        if validated == [] then Some(WrongValidator(i.id))
        else if Keep(validated, (e: Evidence) => e.pass && concrete(e)) == [] then Some(NotPassing(i.id))
        else None
  }

  /** How far along the chain item id, receipt, validator, passing-and-concrete
      a proof agrees with the item. */
  function Agreement(concrete: Concrete, e: Evidence, i: Item): (r: nat)
    ensures r <= 4
    ensures r == 4 <==> Satisfies(concrete, e, i)
  {
    if e.itemId != Some(i.id) then 0
    else if e.receipt != Some(i.receipt) then 1
    else if e.validator != Some(i.validator) then 2
    else if e.pass && concrete(e) then 4 else 3
  }

  /** The furthest agreement among the proofs: a maximum, no filters. */
  function Furthest(concrete: Concrete, i: Item, evidence: seq<Evidence>): (r: nat)
    ensures r <= 4
    ensures forall e :: e in evidence ==> Agreement(concrete, e, i) <= r
    ensures r > 0 ==> exists e :: e in evidence && Agreement(concrete, e, i) == r
  {
    if evidence == [] then 0
    else
      var rest, last := Furthest(concrete, i, evidence[..|evidence| - 1]), evidence[|evidence| - 1];
      var here := Agreement(concrete, last, i);
      if here > rest then (assert last in evidence; here) else rest
  }

  function IssueAt(far: nat, id: string): Option<Issue> {
    if far == 0 then Some(NoReceipt(id)) else if far == 1 then Some(WrongReceipt(id))
    else if far == 2 then Some(WrongValidator(id)) else if far == 3 then Some(NotPassing(id)) else None
  }

  lemma KeepsNone(evidence: seq<Evidence>, p: Evidence -> bool)
    requires forall e :: e in evidence ==> !p(e)
    ensures Keep(evidence, p) == []
  {
    var kept := Keep(evidence, p);
    assert forall k :: 0 <= k < |kept| ==> kept[k] in kept;
  }

  /** The filters report the first link beyond the furthest one any proof reaches. */
  lemma GapIsFurthest(concrete: Concrete, i: Item, evidence: seq<Evidence>)
    ensures Gap(concrete, i, evidence) == IssueAt(Furthest(concrete, i, evidence), i.id)
  {
    var far := Furthest(concrete, i, evidence);
    var isItem := (e: Evidence) => e.itemId == Some(i.id);
    if far == 0 { KeepsNone(evidence, isItem); return; }
    var best :| best in evidence && Agreement(concrete, best, i) == far;
    var forItem := Keep(evidence, isItem);
    assert best in forItem;
    var isNamed := (e: Evidence) => e.receipt == Some(i.receipt);
    if far == 1 { KeepsNone(forItem, isNamed); return; }
    var named := Keep(forItem, isNamed);
    assert best in named;
    var isValidated := (e: Evidence) => e.validator == Some(i.validator);
    if far == 2 { KeepsNone(named, isValidated); return; }
    var validated := Keep(named, isValidated);
    assert best in validated;
    var passes := (e: Evidence) => e.pass && concrete(e);
    if far == 3 { KeepsNone(validated, passes); return; }
    assert best in Keep(validated, passes);
  }

  lemma ProvenIsFurthest(concrete: Concrete, i: Item, evidence: seq<Evidence>)
    ensures Proven(concrete, i, evidence) <==> IssueAt(Furthest(concrete, i, evidence), i.id) == None
  {
    if Proven(concrete, i, evidence) {
      var e :| e in evidence && Satisfies(concrete, e, i);
      assert Agreement(concrete, e, i) == 4;
    }
  }

  /** The gaps of the unproven items, in item order. */
  function Gaps(concrete: Concrete, items: seq<Item>, evidence: seq<Evidence>): (r: seq<Issue>)
  {
    if items == [] then []
    else
      var last := items[|items| - 1];
      var gap := IssueAt(Furthest(concrete, last, evidence), last.id);
      Gaps(concrete, items[..|items| - 1], evidence) + if gap.Some? then [gap.value] else []
  }

  lemma AllProvenSplit(concrete: Concrete, items: seq<Item>, evidence: seq<Evidence>)
    requires items != []
    ensures AllProven(concrete, items, evidence) <==>
            (AllProven(concrete, items[..|items| - 1], evidence) && Proven(concrete, items[|items| - 1], evidence))
  {
    assert items == items[..|items| - 1] + [items[|items| - 1]];
  }

  /** No gap is left exactly when every item is proven. */
  lemma {:induction false} NoGaps(concrete: Concrete, items: seq<Item>, evidence: seq<Evidence>)
    ensures Gaps(concrete, items, evidence) == [] <==> AllProven(concrete, items, evidence)
  {
    if items != [] {
      var last := items[|items| - 1];
      NoGaps(concrete, items[..|items| - 1], evidence);
      ProvenIsFurthest(concrete, last, evidence);
      AllProvenSplit(concrete, items, evidence);
      assert Proven(concrete, last, evidence) ==>
             Gaps(concrete, items, evidence) == Gaps(concrete, items[..|items| - 1], evidence);
    }
  }

  /** The exact gap of each unproven item, in item order; none exactly when all are proven. */
  method CompletionReceiptIssues(concrete: Concrete, items: seq<Item>,
                                 evidence: seq<Evidence>) returns (issues: seq<Issue>)
    ensures issues == Gaps(concrete, items, evidence)
    ensures issues == [] <==> AllProven(concrete, items, evidence)
  {
    issues := [];
    for k := 0 to |items|
      invariant issues == Gaps(concrete, items[..k], evidence)
    {
      var gap := Gap(concrete, items[k], evidence);
      GapIsFurthest(concrete, items[k], evidence);
      assert items[..k + 1][..k] == items[..k];
      if gap.Some? {
        issues := issues + [gap.value];
      }
    }
    assert items[..|items|] == items;
    NoGaps(concrete, items, evidence);
  }

  // ---------------------------------------------------------------- store-backed receipts

  /** The first claimed proof that names the item and passes. */
  function FirstClaim(claimed: seq<Evidence>, i: Item): (r: Option<Evidence>)
    ensures r.Some? <==> exists e :: e in claimed && Names(e, i) && e.pass
    ensures r.Some? ==> r.value in claimed && Names(r.value, i) && r.value.pass
  {
    if claimed == [] then None
    else if Names(claimed[0], i) && claimed[0].pass then Some(claimed[0])
    else FirstClaim(claimed[1..], i)
  }

  /** Replace each claim by the verified receipt on disk; `receipts` maps the
      receipt names and validators with a verified PASS to their paths. */
  function Backed(items: seq<Item>, claimed: seq<Evidence>, receipts: Receipts): Option<seq<Evidence>>
  {
    if items == [] then Some([])
    else
      var front, item := Backed(items[..|items| - 1], claimed, receipts), items[|items| - 1];
      var claim := FirstClaim(claimed, item);
      if front.None? || claim.None? || (item.receipt, item.validator) !in receipts then None
      else Some(front.value + [claim.value.(artifact := true, citation := receipts[(item.receipt, item.validator)])])
  }

  /** Every stored proof names its item, passes, and cites the verified receipt on disk. */
  lemma {:induction false} BackedByReceipts(items: seq<Item>, claimed: seq<Evidence>, receipts: Receipts, k: nat)
    requires Backed(items, claimed, receipts).Some? && k < |items|
    ensures var proofs := Backed(items, claimed, receipts).value;
            && |proofs| == |items|
            && Names(proofs[k], items[k]) && proofs[k].pass && proofs[k].artifact
            && (items[k].receipt, items[k].validator) in receipts
            && proofs[k].citation == receipts[(items[k].receipt, items[k].validator)]
  {
    var front := items[..|items| - 1];
    if front != [] { BackedByReceipts(front, claimed, receipts, if k < |front| then k else 0); }
  }

  /** The whole gate: claims complete, receipts verified, and the resulting proofs complete again. */
  function GateProofs(concrete: Concrete, items: seq<Item>, claimed: seq<Evidence>,
                      receipts: Receipts): (r: Option<seq<Evidence>>)
    ensures r.Some? ==> items != [] && AllProven(concrete, items, r.value)
  {
    if items == [] || !AllProven(concrete, items, claimed) then None
    else
      var backed := Backed(items, claimed, receipts);
      if backed.None? || !AllProven(concrete, items, backed.value) then None else backed
  }

  /** The first claimed proof that names the item and passes stands at `k`. */
  predicate FirstNamed(claimed: seq<Evidence>, i: Item, k: nat) {
    && k < |claimed| && Names(claimed[k], i) && claimed[k].pass
    && forall j :: 0 <= j < k ==> !(Names(claimed[j], i) && claimed[j].pass)
  }

  /** It is still concrete once it cites the verified receipt. */
  predicate BackedConcrete(concrete: Concrete, i: Item, claimed: seq<Evidence>, receipts: Receipts) {
    && (i.receipt, i.validator) in receipts
    && exists k :: 0 <= k < |claimed| && FirstNamed(claimed, i, k)
                   && concrete(claimed[k].(artifact := true, citation := receipts[(i.receipt, i.validator)]))
  }

  lemma {:induction false} FirstClaimAt(claimed: seq<Evidence>, i: Item, k: nat)
    requires FirstNamed(claimed, i, k)
    ensures FirstClaim(claimed, i) == Some(claimed[k])
  {
    if k > 0 {
      assert !(Names(claimed[0], i) && claimed[0].pass);
      forall j | 0 <= j < k - 1 ensures !(Names(claimed[1..][j], i) && claimed[1..][j].pass) {
        assert claimed[1..][j] == claimed[j + 1];
      }
      FirstClaimAt(claimed[1..], i, k - 1);
    }
  }

  lemma {:induction false} FirstClaimFound(claimed: seq<Evidence>, i: Item) returns (k: nat)
    requires FirstClaim(claimed, i).Some?
    ensures FirstNamed(claimed, i, k) && FirstClaim(claimed, i).value == claimed[k]
  {
    if Names(claimed[0], i) && claimed[0].pass { k := 0; }
    else {
      k := FirstClaimFound(claimed[1..], i);
      forall j | 0 <= j < k +
        1 ensures !(Names(claimed[j], i) && claimed[j].pass) { if j > 0 { assert claimed[1..][j - 1] == claimed[j]; } }
      k := k + 1;
    }
  }

  /** Backing succeeds exactly when every item has a claim and a receipt. */
  lemma {:induction false} BackedIff(items: seq<Item>, claimed: seq<Evidence>, receipts: Receipts)
    ensures Backed(items, claimed, receipts).Some? <==>
            forall k :: 0 <= k < |items| ==>
                FirstClaim(claimed, items[k]).Some? && (items[k].receipt, items[k].validator) in receipts
  {
    if items != [] {
      var n := |items| - 1;
      BackedIff(items[..n], claimed, receipts);
      assert forall k :: 0 <= k < n ==> items[..n][k] == items[k];
    }
  }

  lemma {:induction false} BackedAt(items: seq<Item>, claimed: seq<Evidence>, receipts: Receipts, k: nat)
    requires Backed(items, claimed, receipts).Some? && k < |items|
    ensures var i, proofs := items[k], Backed(items, claimed, receipts).value;
            && |proofs| == |items| && FirstClaim(claimed, i).Some? && (i.receipt, i.validator) in receipts
            && proofs[k] ==
              FirstClaim(claimed, i).value.(artifact := true, citation := receipts[(i.receipt, i.validator)])
  {
    var front := items[..|items| - 1];
    if front != [] { BackedAt(front, claimed, receipts, if k < |front| then k else 0); }
  }

  /** Items with the same id, receipt and validator are backed by the same claim. */
  lemma {:induction false} SameClaim(claimed: seq<Evidence>, i: Item, j: Item)
    requires i.id == j.id && i.receipt == j.receipt && i.validator == j.validator
    ensures FirstClaim(claimed, i) == FirstClaim(claimed, j)
  {
    if claimed != [] { SameClaim(claimed[1..], i, j); }
  }

  lemma ProvenIsBacked(concrete: Concrete, items: seq<Item>, claimed: seq<Evidence>, receipts: Receipts, k: nat)
    requires Backed(items, claimed, receipts).Some? && k < |items|
    ensures Proven(concrete, items[k], Backed(items, claimed, receipts).value) <==>
              BackedConcrete(concrete, items[k], claimed, receipts)
  {
    var i, proofs := items[k], Backed(items, claimed, receipts).value;
    BackedAt(items, claimed, receipts, k);
    var at := FirstClaimFound(claimed, i);
    if Proven(concrete, i, proofs) {
      var e :| e in proofs && Satisfies(concrete, e, i);
      var l :| 0 <= l < |proofs| && proofs[l] == e;
      BackedAt(items, claimed, receipts, l);
      assert Names(FirstClaim(claimed, items[l]).value, items[l]);
      SameClaim(claimed, i, items[l]);
      assert FirstNamed(claimed, i, at) && e == proofs[k];
    }
    if BackedConcrete(concrete, i, claimed, receipts) {
      var m :| 0 <= m < |claimed| && FirstNamed(claimed, i, m)
               && concrete(claimed[m].(artifact := true, citation := receipts[(i.receipt, i.validator)]));
      FirstClaimAt(claimed, i, m);
      assert proofs[k] in proofs && Satisfies(concrete, proofs[k], i);
    }
  }

  /** The gate opens exactly when there are items, each is proven by the claims, each has its verified receipt, and
      the claim it rests on is still concrete once it cites that receipt. */
  lemma GateOpensIff(concrete: Concrete, items: seq<Item>, claimed: seq<Evidence>, receipts: Receipts)
    ensures GateProofs(concrete, items, claimed, receipts).Some? <==>
            items != [] && AllProven(concrete, items, claimed) && forall i :: i in items ==>
                BackedConcrete(concrete, i, claimed, receipts)
  {
    var backed := Backed(items, claimed, receipts);
    BackedIff(items, claimed, receipts);
    if backed.Some? {
      forall i | i in items
        ensures Proven(concrete, i, backed.value) <==> BackedConcrete(concrete, i, claimed, receipts)
      {
        var k :| 0 <= k < |items| && items[k] == i;
        ProvenIsBacked(concrete, items, claimed, receipts, k);
      }
    } else {
      var k :| 0 <= k < |items| &&
        !(FirstClaim(claimed, items[k]).Some? && (items[k].receipt, items[k].validator) in receipts);
      assert items[k] in items;
    }
  }

  // ---------------------------------------------------------------- the board

  datatype ProofState = Verified | Pending | Unbound

  /** The board asks for a passing proof, not for a concrete citation. */
  predicate Checked(i: Item, proofs: seq<Evidence>) {
    exists e :: e in proofs && Names(e, i) && e.pass
  }

  /** Item id, then receipt, then validator, then a passing result. */
  function StructuredProof(i: Item, proofs: seq<Evidence>): (r: ProofState)
    ensures r.Verified? <==> Checked(i, proofs)
    ensures r.Unbound? <==> !exists e :: e in proofs && Names(e, i)
  {
    var validated := Keep(proofs, (e: Evidence) => Names(e, i));
    var passing := Keep(validated, (e: Evidence) => e.pass);
    if passing != [] then (assert passing[0] in proofs; Verified)
    else if validated != [] then (assert validated[0] in proofs; Pending)
    else Unbound
  }

  /** The board's counters; `clauses` are the plain-text conditions of a lane without structured items. */
  method BuildDoneWhen(items: seq<Item>, proofs: seq<Evidence>, clauses: nat)
    returns (proven: nat, tracked: nat, total: nat)
    ensures proven <= tracked <= total
    ensures total == if items == [] then clauses else |items|
    ensures items != [] ==> (proven == total <==> forall i :: i in items ==> Checked(i, proofs))
    ensures items == [] ==> proven == 0
  {
    proven, tracked := 0, 0;
    if items == [] { return 0, 0, clauses; }
    for k := 0 to |items|
      invariant proven <= tracked <= k
      invariant proven == k <==> forall i :: i in items[..k] ==> Checked(i, proofs)
    {
      var item := items[k];
      assert items[..k + 1] == items[..k] + [item] && item in items[..k + 1];
      var state := StructuredProof(item, proofs);
      if state.Verified? {
        proven, tracked := proven + 1, tracked + 1;
      } else if state.Pending? {
        tracked := tracked + 1;
      }
    }
    assert items[..|items|] == items;
    total := |items|;
  }

  /** Whatever passes the gate the board reports as fully proven. */
  lemma GateImpliesBoard(concrete: Concrete, items: seq<Item>, proofs: seq<Evidence>)
    requires AllProven(concrete, items, proofs)
    ensures forall i :: i in items ==> Checked(i, proofs)
  {
    forall i | i in items ensures Checked(i, proofs) {
      var e :| e in proofs && Satisfies(concrete, e, i);
    }
  }
}
