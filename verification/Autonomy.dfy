/** Capability authorization of src/chitra/autonomy.py.

    Pattern matching of targets (`fnmatch`) is a parameter `fits(pattern, target)`;
    times are instants on one clock. */
module Autonomy {
  import opened Basics

  datatype Capability = Replan | SmallRedesign | DependencyChange | SchemaChange | HookChange
                      | CredentialUse | Authentication | SecurityChange | IrreversibleAction | Spend

  datatype Grant = Grant(id: string, capability: Capability, targets: seq<string>,
                         maxAmount: Option<real>, currency: string, maxUnits: Option<nat>, expiresAt: Option<int>)

  /** What one action needs; `currency` is read only with an amount. */
  datatype Use = Use(capability: Capability, target: string, amount: Option<real>, currency: string, units: Option<nat>)

  datatype Verdict = Allowed | Incomplete | Denied

  datatype Disposition = AllowedAction | ForegroundResidual | OperatorRequired

  datatype Decision = Decision(disposition: Disposition, grantIds: seq<string>, reasons: seq<string>)

  type Fits = (string, string) -> bool

  predicate TargetMatches(fits: Fits, g: Grant, target: string) {
    exists i :: 0 <= i < |g.targets| && fits(g.targets[i], target)
  }

  predicate InForce(fits: Fits, g: Grant, u: Use, now: int) {
    !(g.expiresAt.Some? && g.expiresAt.value <= now) && TargetMatches(fits, g, u.target)
  }

  function GrantResult(fits: Fits, g: Grant, u: Use, now: int): Verdict {
    if !InForce(fits, g, u, now) then Denied
    else if g.maxAmount.Some? && u.amount.None? then Incomplete
    else if g.maxAmount.Some? && (u.currency != g.currency || u.amount.value > g.maxAmount.value) then Denied
    else if g.maxUnits.Some? && u.units.None? then Incomplete
    else if g.maxUnits.Some? && u.units.value > g.maxUnits.value then Denied
    else Allowed
  }

  // ---------------------------------------------------------------- what a grant permits

  /** The grant is for this capability and target and has not expired. */
  predicate Aimed(fits: Fits, g: Grant, u: Use, now: int) {
    && g.capability == u.capability
    && (g.expiresAt.Some? ==> now < g.expiresAt.value)
    && exists t :: t in g.targets && fits(t, u.target)
  }

  /** A stated amount in the grant's currency and within its limit, where it has one. */
  predicate AmountWithin(g: Grant, u: Use) {
    g.maxAmount.Some? ==> u.amount.Some? && u.currency == g.currency && u.amount.value <= g.maxAmount.value
  }

  predicate UnitsWithin(g: Grant, u: Use) {
    g.maxUnits.Some? ==> u.units.Some? && u.units.value <= g.maxUnits.value
  }

  predicate Permits(fits: Fits, g: Grant, u: Use, now: int) {
    Aimed(fits, g, u, now) && AmountWithin(g, u) && UnitsWithin(g, u)
  }

  /** It would depend on an amount, or within the amount on units, that the use does not state. */
  predicate CannotTell(fits: Fits, g: Grant, u: Use, now: int) {
    && Aimed(fits, g, u, now)
    && ((g.maxAmount.Some? && u.amount.None?) || (AmountWithin(g, u) && g.maxUnits.Some? && u.units.None?))
  }

  lemma GrantResultIs(fits: Fits, g: Grant, u: Use, now: int)
    requires g.capability == u.capability
    ensures GrantResult(fits, g, u, now) == Allowed <==> Permits(fits, g, u, now)
    ensures GrantResult(fits, g, u, now) == Incomplete <==> CannotTell(fits, g, u, now)
  {
    if TargetMatches(fits, g, u.target) {
      var i :| 0 <= i < |g.targets| && fits(g.targets[i], u.target);
      assert g.targets[i] in g.targets;
    }
  }

  predicate Permitted(fits: Fits, grants: seq<Grant>, u: Use, now: int) {
    exists g :: g in grants && Permits(fits, g, u, now)
  }

  predicate Unclear(fits: Fits, grants: seq<Grant>, u: Use, now: int) {
    exists g :: g in grants && CannotTell(fits, g, u, now)
  }

  // ---------------------------------------------------------------- specification

  /** Some grant for the capability gives this verdict. */
  predicate SomeGrant(fits: Fits, grants: seq<Grant>, u: Use, now: int, v: Verdict) {
    exists g :: g in grants && g.capability == u.capability && GrantResult(fits, g, u, now) == v
  }

  /** A requirement is as good as its best grant; without any it is denied. */
  function Requirement(fits: Fits, grants: seq<Grant>, u: Use, now: int): Verdict {
    if SomeGrant(fits, grants, u, now, Allowed) then Allowed
    else if SomeGrant(fits, grants, u, now, Incomplete) then Incomplete
    else Denied
  }

  predicate SomeUse(fits: Fits, grants: seq<Grant>, uses: seq<Use>, now: int, v: Verdict) {
    exists u :: u in uses && Requirement(fits, grants, u, now) == v
  }

  /** An action is as bad as its worst requirement: denied dominates incomplete dominates allowed. */
  function Authorization(fits: Fits, grants: seq<Grant>, uses: seq<Use>, evidence: bool, changes: bool,
                         now: int): Disposition {
    if changes then OperatorRequired
    else if !evidence then ForegroundResidual
    else if SomeUse(fits, grants, uses, now, Denied) then OperatorRequired
    else if SomeUse(fits, grants, uses, now, Incomplete) then ForegroundResidual
    else AllowedAction
  }

  function Dedup(s: seq<string>): (r: seq<string>)
    ensures forall x :: x in r <==> x in s
    ensures forall i, j :: 0 <= i < j < |r| ==> r[i] != r[j]
    ensures (r == []) == (s == [])
  {
    if s == [] then []
    else
      var front, last := Dedup(s[..|s| - 1]), s[|s| - 1];
      if last in front then front else front + [last]
  }

  // ---------------------------------------------------------------- the evaluator

  lemma RequirementIs(fits: Fits, grants: seq<Grant>, u: Use, now: int)
    ensures Requirement(fits, grants, u, now) == Allowed <==> Permitted(fits, grants, u, now)
    ensures Requirement(fits, grants, u, now) == Denied <==>
              !Permitted(fits, grants, u, now) && !Unclear(fits, grants, u, now)
  {
    forall g | g in grants && g.capability == u.capability
      ensures GrantResult(fits, g, u, now) == Allowed <==> Permits(fits, g, u, now)
      ensures GrantResult(fits, g, u, now) == Incomplete <==> CannotTell(fits, g, u, now)
    {
      GrantResultIs(fits, g, u, now);
    }
  }

  /** The index of the first grant for the capability with verdict `v`, or their number. */
  method FirstWith(fits: Fits, grants: seq<Grant>, u: Use, now: int, v: Verdict) returns (k: nat)
    ensures k <= |grants|
    ensures k < |grants| ==> grants[k].capability == u.capability && GrantResult(fits, grants[k], u, now) == v
    ensures forall i :: 0 <= i < k ==>
              !(grants[i].capability == u.capability && GrantResult(fits, grants[i], u, now) == v)
  {
    k := 0;
    while k < |grants| && !(grants[k].capability == u.capability && GrantResult(fits, grants[k], u, now) == v)
      invariant k <= |grants|
      invariant forall i :: 0 <= i < k ==>
                !(grants[i].capability == u.capability && GrantResult(fits, grants[i], u, now) == v)
    {
      k := k + 1;
    }
  }

  /** The first grant of the policy that permits the use has this id. */
  predicate Backs(fits: Fits, grants: seq<Grant>, u: Use, now: int, id: string) {
    exists k :: 0 <= k < |grants| && grants[k].id == id && Permits(fits, grants[k], u, now)
                && forall j :: 0 <= j < k ==> !Permits(fits, grants[j], u, now)
  }

  lemma FirstBacks(fits: Fits, grants: seq<Grant>, u: Use, now: int, k: nat)
    requires k < |grants| && grants[k].capability == u.capability && GrantResult(fits, grants[k], u, now) == Allowed
    requires forall i :: 0 <= i < k ==>
              !(grants[i].capability == u.capability && GrantResult(fits, grants[i], u, now) == Allowed)
    ensures Backs(fits, grants, u, now, grants[k].id)
  {
    GrantResultIs(fits, grants[k], u, now);
    forall j | 0 <= j < k ensures !Permits(fits, grants[j], u, now) {
      if grants[j].capability == u.capability { GrantResultIs(fits, grants[j], u, now); }
    }
  }

  /** One requirement: its verdict, and the first grant that allows it. */
  method EvaluateUse(fits: Fits, grants: seq<Grant>, u: Use, now: int) returns (v: Verdict, id: string)
    ensures v == Requirement(fits, grants, u, now)
    ensures v.Allowed? ==> Backs(fits, grants, u, now, id)
  {
    id := "";
    var k := FirstWith(fits, grants, u, now, Allowed);
    if k < |grants| {
      FirstBacks(fits, grants, u, now, k);
      assert grants[k] in grants;
      return Allowed, grants[k].id;
    }
    var m := FirstWith(fits, grants, u, now, Incomplete);
    if m < |grants| {
      assert grants[m] in grants;
      return Incomplete, id;
    }
    return Denied, id;
  }

  /** Every recorded id is a policy grant that allows some requirement. */
  ghost predicate Grounded(fits: Fits, grants: seq<Grant>, uses: seq<Use>, now: int, ids: seq<string>) {
    forall id :: id in ids ==> exists u :: u in uses && Backs(fits, grants, u, now, id)
  }

  /** Every permitted use has its grant recorded. */
  ghost predicate Covers(fits: Fits, grants: seq<Grant>, uses: seq<Use>, now: int, ids: seq<string>) {
    forall u :: u in uses && Permitted(fits, grants, u, now) ==>
        exists id :: id in ids && Backs(fits, grants, u, now, id)
  }

  lemma GroundedGrows(fits: Fits, grants: seq<Grant>, uses: seq<Use>, i: nat, now: int, ids: seq<string>, id: string)
    requires i < |uses| && Grounded(fits, grants, uses[..i], now, ids)
    ensures Grounded(fits, grants, uses[..i + 1], now, ids)
    ensures Backs(fits, grants, uses[i], now, id) ==> Grounded(fits, grants, uses[..i + 1], now, ids + [id])
  {
    var next := uses[..i + 1];
    assert next == uses[..i] + [uses[i]] && uses[i] in next;
    forall d | d in ids ensures exists u :: u in next && Backs(fits, grants, u, now, d) {
      var u :| u in uses[..i] && Backs(fits, grants, u, now, d);
      assert u in next;
    }
  }

  lemma CoversGrows(fits: Fits, grants: seq<Grant>, uses: seq<Use>, i: nat, now: int, ids: seq<string>,
                    more: seq<string>)
    requires i < |uses| && Covers(fits, grants, uses[..i], now, ids) && forall d :: d in ids ==> d in more
    requires Permitted(fits, grants, uses[i], now) ==>
              exists d :: d in more && Backs(fits, grants, uses[i], now, d)
    ensures Covers(fits, grants, uses[..i + 1], now, more)
  {
    assert uses[..i + 1] == uses[..i] + [uses[i]];
    forall u | u in uses[..i] && Permitted(fits, grants, u, now)
      ensures exists d :: d in more && Backs(fits, grants, u, now, d)
    {
      var d :| d in ids && Backs(fits, grants, u, now, d);
      assert d in more;
    }
  }

  lemma RecordUse(fits: Fits, grants: seq<Grant>, uses: seq<Use>, i: nat, now: int, ids: seq<string>, id: string)
    requires i < |uses| && Grounded(fits, grants, uses[..i], now, ids) && Covers(fits, grants, uses[..i], now, ids)
    ensures !Permitted(fits, grants, uses[i], now) ==>
              Grounded(fits, grants, uses[..i + 1], now, ids) && Covers(fits, grants, uses[..i + 1], now, ids)
    ensures Backs(fits, grants, uses[i], now, id) ==>
              Grounded(fits, grants, uses[..i + 1], now, ids + [id]) &&
                Covers(fits, grants, uses[..i + 1], now, ids + [id])
  {
    GroundedGrows(fits, grants, uses, i, now, ids, id);
    if !Permitted(fits, grants, uses[i], now) { CoversGrows(fits, grants, uses, i, now, ids, ids); }
    if Backs(fits, grants, uses[i], now, id) {
      assert id in ids + [id];
      CoversGrows(fits, grants, uses, i, now, ids, ids + [id]);
    }
  }

  /** The loop over requirements: what was accepted, denied or left incomplete. */
  method AssessUses(fits: Fits, grants: seq<Grant>, uses: seq<Use>, now: int)
    returns (accepted: seq<string>, denied: seq<string>, incomplete: seq<string>)
    ensures denied == [] <==> !SomeUse(fits, grants, uses, now, Denied)
    ensures incomplete == [] <==> !SomeUse(fits, grants, uses, now, Incomplete)
    ensures Grounded(fits, grants, uses, now, accepted) && Covers(fits, grants, uses, now, accepted)
  {
    accepted, denied, incomplete := [], [], [];
    for i := 0 to |uses|
      invariant denied == [] <==> !SomeUse(fits, grants, uses[..i], now, Denied)
      invariant incomplete == [] <==> !SomeUse(fits, grants, uses[..i], now, Incomplete)
      invariant Grounded(fits, grants, uses[..i], now, accepted) && Covers(fits, grants, uses[..i], now, accepted)
    {
      UseAppended(fits, grants, uses, i, now, Denied);
      UseAppended(fits, grants, uses, i, now, Incomplete);
      var v, id := EvaluateUse(fits, grants, uses[i], now);
      RequirementIs(fits, grants, uses[i], now);
      RecordUse(fits, grants, uses, i, now, accepted, id);
      match v {
        case Allowed => accepted := accepted + [id];
        case Incomplete => incomplete := incomplete + ["grant limit cannot be checked from current evidence"];
        case Denied => denied := denied + ["no active grant covers target and limits"];
      }
    }
    assert uses[..|uses|] == uses;
  }

  /** What the disposition means on the fields of the grants and the uses. */
  lemma DispositionIs(fits: Fits, grants: seq<Grant>, uses: seq<Use>, evidence: bool, changes: bool, now: int)
    ensures var d := Authorization(fits, grants, uses, evidence, changes, now);
            && (d == AllowedAction <==> !changes && evidence && forall u :: u in uses ==>
                Permitted(fits, grants, u, now))
            && (d == ForegroundResidual <==>
                  !changes && (evidence ==>
                    (forall u :: u in uses ==> Permitted(fits, grants, u, now) || Unclear(fits, grants, u, now))
                    && exists u :: u in uses && !Permitted(fits, grants, u, now)))
  {
    forall u | u in uses
      ensures Requirement(fits, grants, u, now) == Allowed <==> Permitted(fits, grants, u, now)
      ensures Requirement(fits, grants, u, now) == Denied <==>
                !Permitted(fits, grants, u, now) && !Unclear(fits, grants, u, now)
    {
      RequirementIs(fits, grants, u, now);
    }
  }

  method AuthorizeAction(fits: Fits, grants: seq<Grant>, uses: seq<Use>, evidence: bool, changes: bool, now: int)
    returns (d: Decision)
    ensures d.disposition == Authorization(fits, grants, uses, evidence, changes, now)
    ensures d.disposition == AllowedAction <==>
              !changes && evidence && forall u :: u in uses ==> Permitted(fits, grants, u, now)
    ensures d.disposition == ForegroundResidual <==>
              !changes && (evidence ==>
                (forall u :: u in uses ==> Permitted(fits, grants, u, now) || Unclear(fits, grants, u, now))
                && exists u :: u in uses && !Permitted(fits, grants, u, now))
    ensures Grounded(fits, grants, uses, now, d.grantIds)
    ensures !changes && evidence ==> Covers(fits, grants, uses, now, d.grantIds)
    ensures forall i, j :: 0 <= i < j < |d.grantIds| ==> d.grantIds[i] != d.grantIds[j]
    ensures d.disposition.AllowedAction? <==> d.reasons == []
  {
    DispositionIs(fits, grants, uses, evidence, changes, now);
    if changes { return Decision(OperatorRequired, [], ["the action changes the frozen goal outcome"]); }
    if !evidence {
      return Decision(ForegroundResidual, [], ["authority evidence is incomplete; investigate and replan"]);
    }
    var accepted, denied, incomplete := AssessUses(fits, grants, uses, now);
    var ids := Dedup(accepted);
    assert Covers(fits, grants, uses, now, ids) by {
      forall u | u in uses && Permitted(fits, grants, u, now)
        ensures exists id :: id in ids && Backs(fits, grants, u, now, id)
      {
        var id :| id in accepted && Backs(fits, grants, u, now, id);
        assert id in ids;
      }
    }
    if denied != [] { return Decision(OperatorRequired, ids, Dedup(denied)); }
    if incomplete != [] { return Decision(ForegroundResidual, ids, Dedup(incomplete)); }
    return Decision(AllowedAction, ids, []);
  }

  lemma UseAppended(fits: Fits, grants: seq<Grant>, uses: seq<Use>, i: nat, now: int, v: Verdict)
    requires i < |uses|
    ensures SomeUse(fits, grants, uses[..i + 1], now, v)
            <==> SomeUse(fits, grants, uses[..i], now, v) || Requirement(fits, grants, uses[i], now) == v
  {
    assert uses[..i + 1] == uses[..i] + [uses[i]];
    assert uses[i] in uses[..i + 1];
    if SomeUse(fits, grants, uses[..i], now, v) {
      var u :| u in uses[..i] && Requirement(fits, grants, u, now) == v;
      assert u in uses[..i + 1];
    }
  }

  // ---------------------------------------------------------------- what a policy change can do

  function Rank(v: Verdict): nat {
    match v case Denied => 0 case Incomplete => 1 case Allowed => 2
  }

  function Favour(d: Disposition): nat {
    match d case OperatorRequired => 0 case ForegroundResidual => 1 case AllowedAction => 2
  }

  /** If no requirement gets better, neither does the action. */
  lemma WorseRequirements(fits: Fits, grants: seq<Grant>, grants': seq<Grant>, uses: seq<Use>, uses': seq<Use>,
                          evidence: bool, changes: bool, now: int, now': int)
    requires forall u :: u in uses ==> u in uses'
    requires forall u :: u in uses ==>
              Rank(Requirement(fits, grants', u, now')) <= Rank(Requirement(fits, grants, u, now))
    ensures Favour(Authorization(fits, grants', uses', evidence, changes, now'))
         <= Favour(Authorization(fits, grants, uses, evidence, changes, now))
  {
    if !changes && evidence {
      if SomeUse(fits, grants, uses, now, Denied) {
        var u :| u in uses && Requirement(fits, grants, u, now) == Denied;
        assert SomeUse(fits, grants', uses', now', Denied);
      } else if SomeUse(fits, grants, uses, now, Incomplete) {
        var u :| u in uses && Requirement(fits, grants, u, now) == Incomplete;
        assert SomeUse(fits, grants', uses', now', Requirement(fits, grants', u, now'));
      }
    }
  }

  /** The order of grants does not matter to the disposition. */
  lemma GrantOrderIrrelevant(fits: Fits, grants: seq<Grant>, grants': seq<Grant>, uses: seq<Use>, evidence: bool,
                             changes: bool, now: int)
    requires multiset(grants) == multiset(grants')
    ensures Authorization(fits, grants', uses, evidence, changes, now) ==
            Authorization(fits, grants, uses, evidence, changes, now)
  {
    forall g ensures g in grants <==> g in grants' {
      assert g in grants <==> g in multiset(grants);
      assert g in grants' <==> g in multiset(grants');
    }
    WorseRequirements(fits, grants, grants', uses, uses, evidence, changes, now, now);
    WorseRequirements(fits, grants', grants, uses, uses, evidence, changes, now, now);
  }

  /** Adding a grant never worsens the disposition. */
  lemma MoreGrantsNeverWorse(fits: Fits, grants: seq<Grant>, extra: Grant, uses: seq<Use>, evidence: bool,
                             changes: bool, now: int)
    ensures Favour(Authorization(fits, grants, uses, evidence, changes, now))
            <= Favour(Authorization(fits, grants + [extra], uses, evidence, changes, now))
  {
    var more := grants + [extra];
    forall u ensures Rank(Requirement(fits, grants, u, now)) <= Rank(Requirement(fits, more, u, now)) {
      forall v | SomeGrant(fits, grants, u, now, v) ensures SomeGrant(fits, more, u, now, v) {
        var g :| g in grants && g.capability == u.capability && GrantResult(fits, g, u, now) == v;
        assert g in more;
      }
    }
    WorseRequirements(fits, more, grants, uses, uses, evidence, changes, now, now);
  }

  /** Adding a requirement never improves it. */
  lemma MoreRequirementsNeverBetter(fits: Fits, grants: seq<Grant>, uses: seq<Use>, extra: Use, evidence: bool,
                                    changes: bool, now: int)
    ensures Favour(Authorization(fits, grants, uses + [extra], evidence, changes, now))
            <= Favour(Authorization(fits, grants, uses, evidence, changes, now))
  {
    WorseRequirements(fits, grants, grants, uses, uses + [extra], evidence, changes, now, now);
  }

  /** The passing of time never improves it. */
  lemma TimeNeverHelps(fits: Fits, grants: seq<Grant>, uses: seq<Use>, evidence: bool, changes: bool, now: int,
                       later: int)
    requires now <= later
    ensures Favour(Authorization(fits, grants, uses, evidence, changes, later))
            <= Favour(Authorization(fits, grants, uses, evidence, changes, now))
  {
    forall u ensures Rank(Requirement(fits, grants, u, later)) <= Rank(Requirement(fits, grants, u, now)) {
      forall v | v != Denied && SomeGrant(fits, grants, u, later, v) ensures SomeGrant(fits, grants, u, now, v) {
        var g :| g in grants && g.capability == u.capability && GrantResult(fits, g, u, later) == v;
        assert GrantResult(fits, g, u, now) == v;
      }
    }
    WorseRequirements(fits, grants, grants, uses, uses, evidence, changes, now, later);
  }

  // ---------------------------------------------------------------- tightening a limit

  /** `g'` narrows `g`: fewer targets, an earlier expiry, lower or new limits. */
  ghost predicate Tighter(g: Grant, g': Grant) {
    && g'.capability == g.capability
    && (forall p :: p in g'.targets ==> p in g.targets)
    && (g.expiresAt.Some? ==> g'.expiresAt.Some? && g'.expiresAt.value <= g.expiresAt.value)
    && (g.maxAmount.Some? ==>
        g'.maxAmount.Some? && g'.maxAmount.value <= g.maxAmount.value && g'.currency == g.currency)
    && (g.maxUnits.Some? ==> g'.maxUnits.Some? && g'.maxUnits.value <= g.maxUnits.value)
  }

  /** A new amount limit hides an exceeded unit limit: the use states no amount,
      so the evaluator reports missing evidence before it compares units. */
  predicate Masks(fits: Fits, g: Grant, g': Grant, u: Use, now: int) {
    && u.capability == g.capability
    && InForce(fits, g', u, now)
    && g.maxAmount.None? && g'.maxAmount.Some? && u.amount.None?
    && g.maxUnits.Some? && u.units.Some? && u.units.value > g.maxUnits.value
  }

  /** Tightening improves a grant's verdict exactly when it masks. */
  lemma TightenedGrant(fits: Fits, g: Grant, g': Grant, u: Use, now: int)
    requires Tighter(g, g') && u.capability == g.capability
    ensures Rank(GrantResult(fits, g', u, now)) > Rank(GrantResult(fits, g, u, now)) <==> Masks(fits, g, g', u, now)
    ensures Masks(fits, g, g', u, now) ==>
              GrantResult(fits, g, u, now) == Denied && GrantResult(fits, g', u, now) == Incomplete
  {
    if InForce(fits, g', u, now) {
      var i :| 0 <= i < |g'.targets| && fits(g'.targets[i], u.target);
      assert g'.targets[i] in g.targets;
    }
  }

  /** Tightening grant `k` improves a requirement exactly when it was denied and the change masks. */
  lemma TightenedRequirement(fits: Fits, grants: seq<Grant>, k: nat, g': Grant, u: Use, now: int)
    requires k < |grants| && Tighter(grants[k], g')
    ensures Rank(Requirement(fits, grants[k := g'], u, now)) > Rank(Requirement(fits, grants, u, now))
            <==> Requirement(fits, grants, u, now) == Denied && Masks(fits, grants[k], g', u, now)
    ensures Requirement(fits, grants, u, now) == Denied && Masks(fits, grants[k], g', u, now)
            ==> Requirement(fits, grants[k := g'], u, now) == Incomplete
  {
    var tight := grants[k := g'];
    if u.capability == g'.capability { TightenedGrant(fits, grants[k], g', u, now); }
    assert grants[k] in grants && tight[k] in tight;
    forall v | SomeGrant(fits, tight, u, now, v)
      ensures SomeGrant(fits, grants, u, now, v) ||
              (u.capability == g'.capability && GrantResult(fits, g', u, now) == v)
    {
      var g :| g in tight && g.capability == u.capability && GrantResult(fits, g, u, now) == v;
      var i :| 0 <= i < |tight| && tight[i] == g;
      if i != k { assert g == grants[i] && g in grants; }
    }
  }

  /** Tightening a grant improves the disposition exactly when the action was
      refused, every requirement that was refused is masked by the change, and the
      change refuses no other requirement. */
  lemma TighteningHelpsIff(fits: Fits, grants: seq<Grant>, k: nat, g': Grant, uses: seq<Use>, evidence: bool,
                           changes: bool, now: int)
    requires k < |grants| && Tighter(grants[k], g')
    ensures Favour(Authorization(fits, grants[k := g'], uses, evidence, changes, now))
            > Favour(Authorization(fits, grants, uses, evidence, changes, now))
            <==> && !changes && evidence
                 && SomeUse(fits, grants, uses, now, Denied)
                 && forall u :: u in uses ==>
                      if Requirement(fits, grants, u, now) == Denied then Masks(fits, grants[k], g', u, now)
                      else Requirement(fits, grants[k := g'], u, now) != Denied
  {
    var tight := grants[k := g'];
    forall u ensures Rank(Requirement(fits, tight, u, now)) > Rank(Requirement(fits, grants, u, now))
                     <==> Requirement(fits, grants, u, now) == Denied && Masks(fits, grants[k], g', u, now)
    {
      TightenedRequirement(fits, grants, k, g', u, now);
    }
    if !changes && evidence {
      if SomeUse(fits, grants, uses, now, Denied) {
        if u :| u in uses && Requirement(fits, tight, u, now) == Denied {
          assert SomeUse(fits, tight, uses, now, Denied);
        }
      } else {
        WorseRequirements(fits, grants, tight, uses, uses, evidence, changes, now, now);
      }
    }
  }

  /** A policy the code answers less strictly after an amount limit is added. */
  lemma TighteningCanHelp(fits: Fits)
    requires fits("goal", "goal")
    ensures var g := Grant("spend", Spend, ["goal"], None, "USD", Some(1), None);
            var g' := g.(maxAmount := Some(10.0));
            var u := Use(Spend, "goal", None, "USD", Some(5));
            && Tighter(g, g')
            && Authorization(fits, [g], [u], true, false, 0) == OperatorRequired
            && Authorization(fits, [g'], [u], true, false, 0) == ForegroundResidual
  {
    var g := Grant("spend", Spend, ["goal"], None, "USD", Some(1), None);
    var u := Use(Spend, "goal", None, "USD", Some(5));
    assert Masks(fits, g, g.(maxAmount := Some(10.0)), u, 0) by { assert g.targets[0] == "goal"; }
    TighteningHelpsIff(fits, [g], 0, g.(maxAmount := Some(10.0)), [u], true, false, 0);
    TightenedRequirement(fits, [g], 0, g.(maxAmount := Some(10.0)), u, 0);
    TightenedGrant(fits, g, g.(maxAmount := Some(10.0)), u, 0);
    assert u in [u];
    assert [g][0 := g.(maxAmount := Some(10.0))] == [g.(maxAmount := Some(10.0))];
  }
}
