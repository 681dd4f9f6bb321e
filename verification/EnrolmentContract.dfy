/** The enrolment validator of src/chitra/goals.py, which collects its issues in loops. */
module EnrolmentContract {
  import opened Basics
  import opened Text
  import opened CompletionGate
  import opened Goals

  datatype Flaw =
    | NoInterview | InterviewName | InterviewTime | InterviewDigest | InterviewProvenance | NoItems
    | BlankId | DuplicateId(id: string) | BlankText(id: string) | BlankValidator(id: string)
    | BlankReceipt(id: string) | DuplicateReceipt(id: string) | UnsafeReceipt(id: string)
    | NotRegistered(id: string) | PinMismatch(id: string) | DoneWhenNotGenerated | EnrolledDoneWhenNotGenerated

  method InterviewFlaws(rules: Rules, interview: Option<Interview>) returns (flaws: seq<Flaw>)
    ensures flaws == [] <==> interview.Some? && InterviewOk(rules, interview.value)
  {
    if interview.None? { return [NoInterview]; }
    var i := interview.value;
    flaws := [];
    if Blank(i.name) { flaws := flaws + [InterviewName]; }
    if !rules.isTime(i.completedAt) { flaws := flaws + [InterviewTime]; }
    if !IsSha(i.answers) { flaws := flaws + [InterviewDigest]; }
    if |i.provenance| != 4 || exists p :: p in i.provenance && !ProvenanceOk(p) {
      flaws := flaws + [InterviewProvenance];
    }
  }

  /** The flaws of one item, given the ids and receipt names of the items before it. */
  function ItemFlaws(rules: Rules, registry: Option<map<string, string>>, i: Item, ids: set<string>,
                     receipts: set<string>): (r: seq<Flaw>)
    ensures r == [] <==>
              ItemOk(rules, i) && i.id !in ids && i.receipt !in receipts &&
                (registry.Some? ==> ItemRegistered(registry.value, i))
  {
    (if Blank(i.id) then [BlankId] else if i.id in ids then [DuplicateId(i.id)] else [])
    + (if Blank(i.text) then [BlankText(i.id)] else [])
    + (if Blank(i.validator) then [BlankValidator(i.id)] else [])
    + (if Blank(i.receipt) then [BlankReceipt(i.id)] else if i.receipt in receipts then [DuplicateReceipt(i.id)]
       else if !rules.safeName(i.receipt) then [UnsafeReceipt(i.id)] else [])
    + (if registry.Some? && i.validator !in registry.value then [NotRegistered(i.id)]
       else if registry.Some? && i.pin != "" && registry.value[i.validator] != i.pin then [PinMismatch(i.id)] else [])
  }

  /** The front of the items is free of flaws. */
  predicate Clean(rules: Rules, registry: Option<map<string, string>>, items: seq<Item>) {
    && (forall i :: i in items ==> ItemOk(rules, i))
    && DistinctIds(items) && DistinctReceipts(items)
    && (registry.Some? ==> Registered(registry.value, items))
  }

  lemma IdsGrow(items: seq<Item>, i: Item)
    ensures DistinctIds(items + [i]) <==> DistinctIds(items) && i.id !in (set x | x in items :: x.id)
  {
    var all := items + [i];
    assert forall k :: 0 <= k < |items| ==> all[k] == items[k];
    if DistinctIds(all) {
      forall x | x in items ensures x.id != i.id {
        var k :| 0 <= k < |items| && items[k] == x;
        assert all[k].id != all[|items|].id;
      }
    } else if DistinctIds(items) {
      var j, k :| 0 <= j < k < |all| && all[j].id == all[k].id;
      assert k == |items| && items[j] in items;
    }
  }

  lemma ReceiptsGrow(items: seq<Item>, i: Item)
    ensures DistinctReceipts(items + [i]) <==>
              DistinctReceipts(items) && i.receipt !in (set x | x in items :: x.receipt)
  {
    var all := items + [i];
    assert forall k :: 0 <= k < |items| ==> all[k] == items[k];
    if DistinctReceipts(all) {
      forall x | x in items ensures x.receipt != i.receipt {
        var k :| 0 <= k < |items| && items[k] == x;
        assert all[k].receipt != all[|items|].receipt;
      }
    } else if DistinctReceipts(items) {
      var j, k :| 0 <= j < k < |all| && all[j].receipt == all[k].receipt;
      assert k == |items| && items[j] in items;
    }
  }

  lemma CleanGrows(rules: Rules, registry: Option<map<string, string>>, items: seq<Item>, i: Item)
    ensures Clean(rules, registry, items + [i]) <==>
            (Clean(rules, registry, items)
             && ItemFlaws(rules, registry, i, set x | x in items :: x.id, set x | x in items :: x.receipt) == [])
  {
    IdsGrow(items, i);
    ReceiptsGrow(items, i);
    assert forall x :: x in items + [i] <==> x in items || x == i;
  }

  method ItemsFlaws(rules: Rules, registry: Option<map<string, string>>, items: seq<Item>) returns (flaws: seq<Flaw>)
    ensures flaws == [] <==> items != [] && Clean(rules, registry, items)
  {
    flaws := if items == [] then [NoItems] else [];
    var ids, receipts := {}, {};
    for k := 0 to |items|
      invariant ids == set x | x in items[..k] :: x.id
      invariant receipts == set x | x in items[..k] :: x.receipt
      invariant items != [] ==> (flaws == [] <==> Clean(rules, registry, items[..k]))
      invariant items == [] ==> flaws != []
    {
      CleanGrows(rules, registry, items[..k], items[k]);
      assert items[..k + 1] == items[..k] + [items[k]];
      var more := ItemFlaws(rules, registry, items[k], ids, receipts);
      assert flaws + more == [] <==> flaws == [] && more == [];
      flaws := flaws + more;
      ids, receipts := ids + {items[k].id}, receipts + {items[k].receipt};
    }
    assert items[..|items|] == items;
  }

  /** Free of flaws exactly when the enrolment contract holds and, given a registry, it vouches for every item. */
  method ValidateEnrollmentContract(rules: Rules, registry: Option<map<string, string>>, a: Anchor,
                                    doneWhen: string) returns (flaws: seq<Flaw>)
    ensures flaws == [] <==> Enrolled(rules, a, doneWhen) && (registry.Some? ==> Registered(registry.value, a.items))
  {
    flaws := InterviewFlaws(rules, a.interview);
    var more := ItemsFlaws(rules, registry, a.items);
    flaws := flaws + more;
    var rendered := Render(a.items);
    if a.items != [] && Strip(doneWhen) != rendered { flaws := flaws + [DoneWhenNotGenerated]; }
    if a.doneWhen != "" && a.doneWhen != rendered { flaws := flaws + [EnrolledDoneWhenNotGenerated]; }
  }
}
