/** The freshness-bounded lane registry of src/chitra/account_registry.py.

    Times are instants in the units of the freshness window. */
module AccountRegistry {
  import opened Basics
  import opened TextOrder

  datatype Verdict = Verdict(lane: string, sessionId: string, kind: string, account: string)

  datatype Entry = Entry(lane: string, sessionId: string, kind: string, account: string, updatedAt: int)

  /** One sweep: when it ran, what it observed, and its freshness window. */
  datatype Sweep = Sweep(now: int, verdicts: seq<Verdict>, window: int)

  function Observed(v: Verdict, now: int): Entry {
    Entry(v.lane, v.sessionId, v.kind, v.account, now)
  }

  /** The last verdict for a lane; the account-wide probe has no lane and is not tracked. */
  function LastVerdict(verdicts: seq<Verdict>, lane: string): (v: Option<Verdict>)
    ensures v.Some? <==> lane != "" && exists i :: 0 <= i < |verdicts| && verdicts[i].lane == lane
    ensures v.Some? ==> exists i :: 0 <= i < |verdicts| && verdicts[i] == v.value && v.value.lane == lane
                                    && forall j :: i < j < |verdicts| ==> verdicts[j].lane != lane
  {
    if verdicts == [] || lane == "" then None
    else if verdicts[|verdicts| - 1].lane == lane then Some(verdicts[|verdicts| - 1])
    else LastVerdict(verdicts[..|verdicts| - 1], lane)
  }

  lemma LastVerdictAppend(verdicts: seq<Verdict>, i: nat, lane: string)
    requires i < |verdicts|
    ensures LastVerdict(verdicts[..i + 1], lane)
            == if lane != "" && verdicts[i].lane == lane then Some(verdicts[i]) else LastVerdict(verdicts[..i], lane)
  {
    assert verdicts[..i + 1][..i] == verdicts[..i];
  }

  type Table = map<string, Entry>

  predicate Retained(e: Entry, now: int, window: int) {
    now - e.updatedAt <= window
  }

  /** What a sweep observed of one lane. */
  function Seen(verdicts: seq<Verdict>, now: int, lane: string): Option<Entry> {
    var v := LastVerdict(verdicts, lane);
    if v.Some? then Some(Observed(v.value, now)) else None
  }

  /** What a sweep leaves for one lane: its observation, or the prior entry while fresh. */
  function After(prior: Option<Entry>, sweep: Sweep, lane: string): Option<Entry> {
    if Seen(sweep.verdicts, sweep.now, lane).Some? then Seen(sweep.verdicts, sweep.now, lane)
    else if prior.Some? && Retained(prior.value, sweep.now, sweep.window) then prior
    else None
  }

  function Lookup(t: Table, lane: string): Option<Entry> {
    if lane in t then Some(t[lane]) else None
  }

  /** The account changes a sweep reports, verdict by verdict. */
  function Changes(t: Table, verdicts: seq<Verdict>): seq<(string, string, string)> {
    if verdicts == [] then []
    else
      var v := verdicts[|verdicts| - 1];
      Changes(t, verdicts[..|verdicts| - 1])
      + if v.lane != "" && v.lane in t && t[v.lane].account != "" && v.account != "" && t[v.lane].account != v.account
        then [(v.lane, t[v.lane].account, v.account)] else []
  }

  /** A change is reported exactly for a verdict that names another account than the stored entry of its lane. */
  lemma {:induction false} ChangesMean(t: Table, verdicts: seq<Verdict>, lane: string, was: string, is': string)
    ensures (lane, was, is') in Changes(t, verdicts) <==>
              && lane != "" && lane in t && t[lane].account == was && was != "" && is' != "" && was != is'
              && exists v :: v in verdicts && v.lane == lane && v.account == is'
  {
    if verdicts != [] {
      var front, last := verdicts[..|verdicts| - 1], verdicts[|verdicts| - 1];
      ChangesMean(t, front, lane, was, is');
      assert verdicts == front + [last];
    }
  }

  predicate Keyed(t: Table) {
    forall lane :: lane in t ==> t[lane].lane == lane && lane != ""
  }

  /** The lanes of `order` that were not seen and are still fresh. */
  function Missing(order: seq<string>, t: Table, seen: set<string>, now: int, window: int): (r: seq<Entry>)
    requires forall lane :: lane in order ==> lane in t
  {
    if order == [] then []
    else
      var lane := order[|order| - 1];
      Missing(order[..|order| - 1], t, seen, now, window)
      + if lane !in seen && Retained(t[lane], now, window) then [t[lane]] else []
  }

  function Lanes(entries: seq<Entry>): seq<string> {
    seq(|entries|, i requires 0 <= i < |entries| => entries[i].lane)
  }

  lemma {:induction false} MissingHas(order: seq<string>, t: Table, seen: set<string>, now: int, window: int, e: Entry)
    requires Keyed(t) && forall lane :: lane in order ==> lane in t
    ensures e in Missing(order, t, seen, now, window) <==>
              e.lane in order && e.lane !in seen && t[e.lane] == e && Retained(e, now, window)
  {
    if order != [] {
      var front, lane := order[..|order| - 1], order[|order| - 1];
      MissingHas(front, t, seen, now, window, e);
      assert order == front + [lane];
    }
  }

  lemma {:induction false} MissingSorted(order: seq<string>, t: Table, seen: set<string>, now: int, window: int)
    requires Keyed(t) && StrictlySorted(order) && forall lane :: lane in order ==> lane in t
    ensures StrictlySorted(Lanes(Missing(order, t, seen, now, window)))
  {
    if order != [] {
      var front, lane := order[..|order| - 1], order[|order| - 1];
      MissingSorted(front, t, seen, now, window);
      var r := Missing(front, t, seen, now, window);
      forall i | 0 <= i < |r| ensures Le(r[i].lane, lane) && r[i].lane != lane {
        MissingHas(front, t, seen, now, window, r[i]);
        var k :| 0 <= k < |front| && front[k] == r[i].lane;
        assert order[k] == front[k] && Le(order[k], order[|order| - 1]);
      }
      assert lane in order;
      SortedAppend(r, t[lane]);
      assert r + [] == r;
    }
  }

  lemma SortedAppend(r: seq<Entry>, e: Entry)
    requires StrictlySorted(Lanes(r)) && forall i :: 0 <= i < |r| ==> Le(r[i].lane, e.lane) && r[i].lane != e.lane
    ensures StrictlySorted(Lanes(r + [e]))
  {
    var all, lanes := Lanes(r + [e]), Lanes(r);
    assert forall i :: 0 <= i < |r| ==> all[i] == lanes[i] == r[i].lane;
  }

  lemma MissingIsExact(order: seq<string>, t: Table, seen: set<string>, now: int, window: int)
    requires Keyed(t) && StrictlySorted(order) && forall lane :: lane in order ==> lane in t
    ensures var r := Missing(order, t, seen, now, window);
            && (forall e :: e in r <==>
                e.lane in order && e.lane !in seen && t[e.lane] == e && Retained(e, now, window))
            && StrictlySorted(Lanes(r))
  {
    forall e ensures e in Missing(order, t, seen, now, window) <==>
        e.lane in order && e.lane !in seen && t[e.lane] == e && Retained(e, now, window) {
      MissingHas(order, t, seen, now, window, e);
    }
    MissingSorted(order, t, seen, now, window);
  }

  class Registry {
    var table: Table          // the stored document
    var written: seq<string>  // the order its entries are written in
    ghost var history: seq<Sweep>

    ghost predicate Valid()
      reads this
    {
      Keyed(table) && written == Sorted(table.Keys) && forall lane :: Lookup(table, lane) == Held(history, lane)
    }

    constructor ()
      ensures Valid() && table == map[] && history == []
    {
      table, written, history := map[], [], [];
    }

    /** First loop: fold the sweep's verdicts. */
    static method Observe(existing: Table, verdicts: seq<Verdict>, now: int)
      returns (merged: Table, changed: seq<(string, string, string)>)
      ensures changed == Changes(existing, verdicts)
      ensures forall lane :: Lookup(merged, lane) == Seen(verdicts, now, lane)
    {
      merged, changed := map[], [];
      for i := 0 to |verdicts|
        invariant changed == Changes(existing, verdicts[..i])
        invariant forall lane :: Lookup(merged, lane) == Seen(verdicts[..i], now, lane)
      {
        var v := verdicts[i];
        assert verdicts[..i + 1][..i] == verdicts[..i];
        ghost var before := merged;
        if v.lane != "" {
          if v.lane in existing && existing[v.lane].account != "" && v.account != "" &&
            existing[v.lane].account != v.account {
            changed := changed + [(v.lane, existing[v.lane].account, v.account)];
          }
          merged := merged[v.lane := Observed(v, now)];
        }
        forall lane ensures Lookup(merged, lane) == Seen(verdicts[..i + 1], now, lane) {
          LastVerdictAppend(verdicts, i, lane);
          assert Lookup(before, lane) == Seen(verdicts[..i], now, lane);
        }
      }
      assert verdicts[..|verdicts|] == verdicts;
    }

    /** Second loop: keep the fresh entries the sweep did not observe. */
    static method Retain(existing: Table, order: seq<string>, observed: Table, now: int, window: int)
      returns (merged: Table, disappeared: seq<Entry>)
      requires forall lane :: lane in order ==> lane in existing
      ensures disappeared == Missing(order, existing, observed.Keys, now, window)
      ensures forall lane :: Lookup(merged, lane) ==
                if lane in observed then Some(observed[lane])
                else if lane in order && Retained(existing[lane], now, window) then Some(existing[lane])
                else None
    {
      merged, disappeared := observed, [];
      for i := 0 to |order|
        invariant disappeared == Missing(order[..i], existing, observed.Keys, now, window)
        invariant forall lane :: Lookup(merged, lane) ==
                    if lane in observed then Some(observed[lane])
                    else if lane in order[..i] && Retained(existing[lane], now, window) then Some(existing[lane])
                    else None
      {
        var lane := order[i];
        assert order[..i + 1] == order[..i] + [lane] && order[..i + 1][..i] == order[..i];
        if lane in observed { continue; }
        if Retained(existing[lane], now, window) {
          disappeared := disappeared + [existing[lane]];
          merged := merged[lane := existing[lane]];
        }
      }
      assert order[..|order|] == order;
    }

    method UpdateRegistry(verdicts: seq<Verdict>, now: int, window: int)
      returns (changed: seq<(string, string, string)>, disappeared: seq<Entry>)
      requires Valid()
      modifies this
      ensures Valid()
      ensures history == old(history) + [Sweep(now, verdicts, window)]
      ensures forall lane :: Lookup(table, lane) == After(Lookup(old(table), lane), Sweep(now, verdicts, window), lane)
      ensures changed == Changes(old(table), verdicts)
      ensures forall lane, was, is' :: (lane, was, is') in changed <==>
                && lane != "" && lane in old(table) && old(table)[lane].account == was && was != "" && is' != "" &&
                  was != is'
                && exists v :: v in verdicts && v.lane == lane && v.account == is'
      // the disappeared lanes are exactly the retained ones this sweep did not observe, each once, in stored order
      ensures forall e :: e in disappeared <==> Lookup(table, e.lane) == Some(e) && LastVerdict(verdicts, e.lane).None?
      ensures StrictlySorted(Lanes(disappeared))
    {
      var existing, order := table, written;
      var observed, merged;
      observed, changed := Observe(existing, verdicts, now);
      merged, disappeared := Retain(existing, order, observed, now, window);
      MergedIsAfter(existing, order, observed, merged, Sweep(now, verdicts, window));
      forall lane, was, is' ensures (lane, was, is') in changed <==>
          && lane != "" && lane in existing && existing[lane].account == was && was != "" && is' != "" && was != is'
          && exists v :: v in verdicts && v.lane == lane && v.account == is'
      {
        ChangesMean(existing, verdicts, lane, was, is');
      }
      DisappearedMeans(existing, order, observed, merged, Sweep(now, verdicts, window));
      table, written := merged, Sorted(merged.Keys);
      history := history + [Sweep(now, verdicts, window)];
      assert history[..|history| - 1] == old(history);
    }
  }

  /** The retained lanes the sweep did not observe. */
  lemma DisappearedMeans(existing: Table, order: seq<string>, observed: Table, merged: Table, sweep: Sweep)
    requires Keyed(existing) && order == Sorted(existing.Keys)
    requires forall lane :: lane in observed <==> LastVerdict(sweep.verdicts, lane).Some?
    requires forall lane :: lane in observed ==> Lookup(observed, lane) == Seen(sweep.verdicts, sweep.now, lane)
    requires forall lane :: Lookup(merged, lane) ==
               if lane in observed then Some(observed[lane])
               else if lane in order && Retained(existing[lane], sweep.now, sweep.window) then Some(existing[lane])
               else None
    ensures var r := Missing(order, existing, observed.Keys, sweep.now, sweep.window);
            && (forall e :: e in r <==> Lookup(merged, e.lane) == Some(e) && LastVerdict(sweep.verdicts, e.lane).None?)
            && StrictlySorted(Lanes(r))
  {
    MissingIsExact(order, existing, observed.Keys, sweep.now, sweep.window);
  }

  /** The two loops together leave exactly what `After` says. */
  lemma MergedIsAfter(existing: Table, order: seq<string>, observed: Table, merged: Table, sweep: Sweep)
    requires Keyed(existing) && order == Sorted(existing.Keys)
    requires forall lane :: Lookup(observed, lane) == Seen(sweep.verdicts, sweep.now, lane)
    requires forall lane :: Lookup(merged, lane) ==
               if lane in observed then Some(observed[lane])
               else if lane in order && Retained(existing[lane], sweep.now, sweep.window) then Some(existing[lane])
               else None
    ensures Keyed(merged)
    ensures forall lane :: lane in observed <==> LastVerdict(sweep.verdicts, lane).Some?
    ensures forall lane :: Lookup(merged, lane) == After(Lookup(existing, lane), sweep, lane)
  {
    forall lane ensures lane in observed <==> LastVerdict(sweep.verdicts, lane).Some? {
      assert Lookup(observed, lane) == Seen(sweep.verdicts, sweep.now, lane);
    }
    forall lane ensures Lookup(merged, lane) == After(Lookup(existing, lane), sweep, lane) {
      assert Lookup(observed, lane) == Seen(sweep.verdicts, sweep.now, lane);
    }
    forall lane | lane in merged ensures merged[lane].lane == lane && lane != "" {
      assert Lookup(merged, lane) == After(Lookup(existing, lane), sweep, lane);
    }
  }

  // ---------------------------------------------------------------- any number of sweeps

  /** The registry after a sequence of sweeps, from an empty store. */
  function Held(sweeps: seq<Sweep>, lane: string): Option<Entry> {
    if sweeps == [] then None
    else After(Held(sweeps[..|sweeps| - 1], lane), sweeps[|sweeps| - 1], lane)
  }

  /** Whether sweep `i` is the last one that observed the lane. */
  predicate LastObserved(sweeps: seq<Sweep>, lane: string, i: nat) {
    && i < |sweeps|
    && LastVerdict(sweeps[i].verdicts, lane).Some?
    && forall j :: i < j < |sweeps| ==> LastVerdict(sweeps[j].verdicts, lane).None?
  }

  /** The entry names the lane, session, kind and account of the verdict, and when it was made. */
  predicate Says(e: Entry, v: Verdict, now: int) {
    e.lane == v.lane && e.sessionId == v.sessionId && e.kind == v.kind && e.account == v.account && e.updatedAt == now
  }

  /** With one window and sweep times that never go back, a lane is held exactly when its last
      observation is the latest sweep's or within the window of it, under the
      identity observed then. */
  lemma {:induction false} HeldIsFresh(sweeps: seq<Sweep>, lane: string, window: int, i: nat)
    requires forall j :: 0 <= j < |sweeps| ==> sweeps[j].window == window
    requires forall j, k :: 0 <= j < k < |sweeps| ==> sweeps[j].now <= sweeps[k].now
    requires LastObserved(sweeps, lane, i)
    ensures if i == |sweeps| - 1 || sweeps[|sweeps| - 1].now - sweeps[i].now <= window
            then Held(sweeps, lane).Some? &&
              Says(Held(sweeps, lane).value, LastVerdict(sweeps[i].verdicts, lane).value, sweeps[i].now)
            else Held(sweeps, lane).None?
  {
    if i < |sweeps| - 1 {
      var front := sweeps[..|sweeps| - 1];
      assert LastObserved(front, lane, i);
      HeldIsFresh(front, lane, window, i);
    }
  }

  lemma StillLast(sweeps: seq<Sweep>, lane: string, i: nat)
    requires sweeps != [] && LastObserved(sweeps[..|sweeps| - 1], lane, i)
    requires LastVerdict(sweeps[|sweeps| - 1].verdicts, lane).None?
    ensures LastObserved(sweeps, lane, i)
  {
  }

  /** A lane no sweep observed is not held. */
  lemma {:induction false} HeldWasObserved(sweeps: seq<Sweep>, lane: string)
    requires Held(sweeps, lane).Some?
    ensures exists i :: LastObserved(sweeps, lane, i)
  {
    var last := |sweeps| - 1;
    if LastVerdict(sweeps[last].verdicts, lane).Some? {
      assert LastObserved(sweeps, lane, last);
    } else {
      HeldWasObserved(sweeps[..last], lane);
      var i :| LastObserved(sweeps[..last], lane, i);
      StillLast(sweeps, lane, i);
    }
  }
}
