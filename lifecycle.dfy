/** The list transforms applied by the application's handlers to the ordered
    expense list: status change (one id or a set of ids), delete (one id or a
    set of ids), whole-record replacement, and the per-business-unit approved
    totals shown on the dashboard chart. */
module Lifecycle {
  import opened Common
  import opened Types
  import opened StatsCards

  /** `map(e => idSet.has(e.id) ? { ...e, status } : e)`: the records whose id
      is in the set take the new status, every other record is kept. */
  function SetStatusWhere(xs: seq<Expense>, ids: set<string>, s: ExpenseStatus): (r: seq<Expense>)
    ensures |r| == |xs|
    ensures forall i :: 0 <= i < |xs| && xs[i].id in ids ==> r[i] == xs[i].(status := s)
    ensures forall i :: 0 <= i < |xs| && xs[i].id !in ids ==> r[i] == xs[i]
  {
    if xs == [] then []
    else [if xs[0].id in ids then xs[0].(status := s) else xs[0]] + SetStatusWhere(xs[1..], ids, s)
  }

  /** `updateStatus`: the same change for the records whose id equals `id`. */
  function UpdateStatus(xs: seq<Expense>, id: string, s: ExpenseStatus): (r: seq<Expense>)
    ensures |r| == |xs|
    ensures forall i :: 0 <= i < |xs| && xs[i].id == id ==> r[i] == xs[i].(status := s)
    ensures forall i :: 0 <= i < |xs| && xs[i].id != id ==> r[i] == xs[i]
  {
    SetStatusWhere(xs, {id}, s)
  }

  /** A status change keeps every id in place, the amounts and the uniqueness of ids. */
  lemma StatusChangeKeepsIds(xs: seq<Expense>, ids: set<string>, s: ExpenseStatus)
    ensures Ids(SetStatusWhere(xs, ids, s)) == Ids(xs)
    ensures UniqueIds(xs) ==> UniqueIds(SetStatusWhere(xs, ids, s))
  {
    var r := SetStatusWhere(xs, ids, s);
    forall i | 0 <= i < |xs| ensures Ids(r)[i] == Ids(xs)[i] {
      if xs[i].id in ids {
        assert r[i] == xs[i].(status := s);
      }
    }
    assert Ids(r) == Ids(xs);
    SameIdsUnique(xs, r);
  }

  lemma {:induction false} StatusChangeKeepsTotal(xs: seq<Expense>, ids: set<string>, s: ExpenseStatus)
    ensures Total(SetStatusWhere(xs, ids, s)) == Total(xs)
  {
    if xs != [] {
      StatusChangeKeepsTotal(xs[1..], ids, s);
    }
  }

  /** Ids that name no record change nothing: with no match the list is returned as is. */
  lemma StatusChangeNoMatch(xs: seq<Expense>, ids: set<string>, s: ExpenseStatus)
    requires forall i :: 0 <= i < |xs| ==> xs[i].id !in ids
    ensures SetStatusWhere(xs, ids, s) == xs
  {
  }

  /** A status change applies piecewise: order is kept across a split of the list. */
  lemma {:induction false} StatusChangeConcat(a: seq<Expense>, b: seq<Expense>, ids: set<string>, s: ExpenseStatus)
    ensures SetStatusWhere(a + b, ids, s) == SetStatusWhere(a, ids, s) + SetStatusWhere(b, ids, s)
  {
    if a == [] {
      assert a + b == b;
    } else {
      assert (a + b)[1..] == a[1..] + b;
      StatusChangeConcat(a[1..], b, ids, s);
    }
  }

  /** The records in a given status. */
  function WithStatus(t: ExpenseStatus): Expense -> bool {
    (e: Expense) => e.status == t
  }

  /** A bulk change to `s` adds to the `s` bucket exactly the selected records
      that were not yet in it, and takes from every other bucket exactly the
      selected records that were in it. */
  lemma {:induction false} StatusChangeCounts(xs: seq<Expense>, ids: set<string>, s: ExpenseStatus, t: ExpenseStatus)
    ensures t == s ==> |Filter(WithStatus(t), SetStatusWhere(xs, ids, s))|
                       == |Filter(WithStatus(t), xs)| + |Filter(InIdsWithout(ids, s), xs)|
    ensures t != s ==> |Filter(WithStatus(t), SetStatusWhere(xs, ids, s))|
                       == |Filter(WithStatus(t), xs)| - |Filter(InIdsWith(ids, t), xs)|
  {
    if xs != [] {
      var ys := SetStatusWhere(xs, ids, s);
      StatusChangeCounts(xs[1..], ids, s, t);
      StatusChangeTail(xs, ids, s);
      FilterLengthHead(WithStatus(t), ys);
      FilterLengthHead(WithStatus(t), xs);
      FilterLengthHead(InIdsWithout(ids, s), xs);
      FilterLengthHead(InIdsWith(ids, t), xs);
    }
  }

  lemma StatusChangeTail(xs: seq<Expense>, ids: set<string>, s: ExpenseStatus)
    requires xs != []
    ensures SetStatusWhere(xs, ids, s)[1..] == SetStatusWhere(xs[1..], ids, s)
  {
  }

  /** Records selected by id whose status differs from `s` / equals `s`. */
  function InIdsWithout(ids: set<string>, s: ExpenseStatus): Expense -> bool {
    (e: Expense) => e.id in ids && e.status != s
  }

  function InIdsWith(ids: set<string>, s: ExpenseStatus): Expense -> bool {
    (e: Expense) => e.id in ids && e.status == s
  }

  function NotInIds(ids: set<string>): Expense -> bool {
    (e: Expense) => e.id !in ids
  }

  function InIds(ids: set<string>): Expense -> bool {
    (e: Expense) => e.id in ids
  }

  /** `filter(e => !idSet.has(e.id))`: exactly the records whose id is not in
      the set survive, in their original order. */
  function RemoveWhere(xs: seq<Expense>, ids: set<string>): (r: seq<Expense>)
    ensures forall i :: 0 <= i < |r| ==> r[i] in xs && r[i].id !in ids
    ensures forall i :: 0 <= i < |xs| && xs[i].id !in ids ==> xs[i] in r
  {
    Filter(NotInIds(ids), xs)
  }

  /** `filter(e => e.id !== id)`: every record with that id goes, the rest stay. */
  function RemoveId(xs: seq<Expense>, id: string): (r: seq<Expense>)
    ensures forall i :: 0 <= i < |r| ==> r[i] in xs && r[i].id != id
    ensures forall i :: 0 <= i < |xs| && xs[i].id != id ==> xs[i] in r
  {
    RemoveWhere(xs, {id})
  }

  /** The survivors keep their relative order: deleting from a concatenation
      deletes from each part. */
  lemma RemoveConcat(a: seq<Expense>, b: seq<Expense>, ids: set<string>)
    ensures RemoveWhere(a + b, ids) == RemoveWhere(a, ids) + RemoveWhere(b, ids)
  {
    FilterConcat(NotInIds(ids), a, b);
  }

  /** The new length is the old length minus the number of matching records. */
  lemma RemoveLength(xs: seq<Expense>, ids: set<string>)
    ensures |RemoveWhere(xs, ids)| == |xs| - |Filter(InIds(ids), xs)|
  {
    FilterComplementLength(InIds(ids), NotInIds(ids), xs);
  }

  /** Ids that name no record delete nothing. */
  lemma RemoveNoMatch(xs: seq<Expense>, ids: set<string>)
    requires forall i :: 0 <= i < |xs| ==> xs[i].id !in ids
    ensures RemoveWhere(xs, ids) == xs
  {
    FilterKeepsAll(NotInIds(ids), xs);
  }

  /** Deleting keeps ids unique. */
  lemma {:induction false} RemoveKeepsUnique(xs: seq<Expense>, ids: set<string>)
    requires UniqueIds(xs)
    ensures UniqueIds(RemoveWhere(xs, ids))
  {
    if xs != [] {
      var rest := RemoveWhere(xs[1..], ids);
      UniqueTail(xs);
      RemoveKeepsUnique(xs[1..], ids);
      if xs[0].id !in ids {
        assert RemoveWhere(xs, ids) == [xs[0]] + rest;
        HeadIdNotInTail(xs);
        UniqueCons(xs[0], rest);
      }
    }
  }

  lemma UniqueTail(xs: seq<Expense>)
    requires xs != [] && UniqueIds(xs)
    ensures UniqueIds(xs[1..])
  {
    forall i, j | 0 <= i < j < |xs| - 1 ensures xs[1..][i].id != xs[1..][j].id {
      assert xs[1..][i] == xs[i + 1] && xs[1..][j] == xs[j + 1];
    }
  }

  /** With unique ids, no later record carries the first record's id. */
  lemma HeadIdNotInTail(xs: seq<Expense>)
    requires xs != [] && UniqueIds(xs)
    ensures forall y :: y in xs[1..] ==> y.id != xs[0].id
  {
    forall y | y in xs[1..] ensures y.id != xs[0].id {
      var j :| 0 <= j < |xs[1..]| && xs[1..][j] == y;
      assert xs[j + 1] == y;
    }
  }

  lemma UniqueCons(x: Expense, rest: seq<Expense>)
    requires UniqueIds(rest)
    requires forall i :: 0 <= i < |rest| ==> rest[i].id != x.id
    ensures UniqueIds([x] + rest)
  {
    var ys := [x] + rest;
    forall i, j | 0 <= i < j < |ys| ensures ys[i].id != ys[j].id {
      assert ys[j] == rest[j - 1];
      if i > 0 {
        assert ys[i] == rest[i - 1];
      }
    }
  }

  /** `map(e => e.id === u.id ? u : e)`: every record with the updated record's
      id is replaced by it, every other record is kept. */
  function ReplaceById(xs: seq<Expense>, u: Expense): (r: seq<Expense>)
    ensures |r| == |xs|
    ensures forall i :: 0 <= i < |xs| && xs[i].id == u.id ==> r[i] == u
    ensures forall i :: 0 <= i < |xs| && xs[i].id != u.id ==> r[i] == xs[i]
  {
    if xs == [] then []
    else [if xs[0].id == u.id then u else xs[0]] + ReplaceById(xs[1..], u)
  }

  /** A replacement keeps the ids in place (hence their uniqueness); with no
      record of that id it changes nothing, and otherwise the record is there. */
  lemma ReplaceKeepsIds(xs: seq<Expense>, u: Expense)
    ensures Ids(ReplaceById(xs, u)) == Ids(xs)
    ensures UniqueIds(xs) ==> UniqueIds(ReplaceById(xs, u))
    ensures u.id !in Ids(xs) ==> ReplaceById(xs, u) == xs
    ensures u.id in Ids(xs) ==> u in ReplaceById(xs, u)
  {
    ReplaceIdsInPlace(xs, u);
    if u.id in Ids(xs) {
      var i :| 0 <= i < |xs| && Ids(xs)[i] == u.id;
      assert ReplaceById(xs, u)[i] == u;
    } else {
      ReplaceAbsent(xs, u);
    }
  }

  /** Position by position, a replacement keeps the ids. */
  lemma ReplaceIdsInPlace(xs: seq<Expense>, u: Expense)
    ensures Ids(ReplaceById(xs, u)) == Ids(xs)
  {
    var r := ReplaceById(xs, u);
    forall i | 0 <= i < |xs| ensures Ids(r)[i] == Ids(xs)[i] {
      if xs[i].id == u.id {
        assert r[i] == u;
      }
    }
  }

  lemma ReplaceAbsent(xs: seq<Expense>, u: Expense)
    requires u.id !in Ids(xs)
    ensures ReplaceById(xs, u) == xs
  {
    forall i | 0 <= i < |xs| ensures ReplaceById(xs, u)[i] == xs[i] {
      assert Ids(xs)[i] == xs[i].id;
    }
  }

  /** Replacing with the record already stored changes nothing. */
  lemma ReplaceWithSame(xs: seq<Expense>, i: nat)
    requires i < |xs| && UniqueIds(xs)
    ensures ReplaceById(xs, xs[i]) == xs
  {
  }

  /** Prepending a record with a fresh id keeps ids unique. */
  lemma PrependFresh(e: Expense, xs: seq<Expense>)
    requires UniqueIds(xs) && e.id !in Ids(xs)
    ensures UniqueIds([e] + xs)
    ensures Ids([e] + xs) == [e.id] + Ids(xs)
  {
    forall j | 0 <= j < |xs| ensures xs[j].id != e.id {
      assert Ids(xs)[j] == xs[j].id;
    }
  }

  /** The records of one business unit. */
  function InUnit(unit: string): Expense -> bool {
    (e: Expense) => e.businessUnit == unit
  }

  /** The approved spending of one business unit. */
  function UnitApprovedTotal(xs: seq<Expense>, unit: string): real {
    Total(Filter(InUnit(unit), Filter(IsApproved, xs)))
  }

  /** Sum of a map's values over a list of its keys. */
  function SumValues(m: map<string, real>, keys: seq<string>): real
    requires forall k :: 0 <= k < |keys| ==> keys[k] in m
  {
    if keys == [] then 0.0 else SumValues(m, keys[..|keys| - 1]) + m[keys[|keys| - 1]]
  }

  /** Updating a key outside the list does not change the sum. */
  lemma {:induction false} SumValuesUpdateOther(m: map<string, real>, keys: seq<string>, k: string, v: real)
    requires forall j :: 0 <= j < |keys| ==> keys[j] in m
    requires k !in keys
    ensures SumValues(m[k := v], keys) == SumValues(m, keys)
  {
    if keys != [] {
      SumValuesUpdateOther(m, keys[..|keys| - 1], k, v);
    }
  }

  /** Updating a key listed once moves the sum by the difference. */
  lemma {:induction false} SumValuesUpdateIn(m: map<string, real>, keys: seq<string>, k: string, v: real)
    requires forall j :: 0 <= j < |keys| ==> keys[j] in m
    requires Distinct(keys) && k in keys
    ensures SumValues(m[k := v], keys) == SumValues(m, keys) - m[k] + v
  {
    var init := keys[..|keys| - 1];
    if keys[|keys| - 1] == k {
      assert k !in init;
      SumValuesUpdateOther(m, init, k, v);
    } else {
      SumValuesUpdateIn(m, init, k, v);
    }
  }

  /** The business units that occur in a list. */
  function UnitSet(s: seq<Expense>): set<string> {
    set j | 0 <= j < |s| :: s[j].businessUnit
  }

  lemma UnitSetAppend(s: seq<Expense>, e: Expense)
    ensures UnitSet(s + [e]) == UnitSet(s) + {e.businessUnit}
  {
    var t := s + [e];
    assert t[|s|] == e;
    forall u | u in UnitSet(s) ensures u in UnitSet(t) {
      var j :| 0 <= j < |s| && s[j].businessUnit == u;
      assert t[j] == s[j];
    }
  }

  /** One more record adds its amount to its own unit's total and nothing to the others. */
  lemma UnitTotalAppend(s: seq<Expense>, e: Expense, w: string)
    ensures Total(Filter(InUnit(w), s + [e]))
            == Total(Filter(InUnit(w), s)) + (if e.businessUnit == w then e.amount else 0.0)
  {
    FilterConcat(InUnit(w), s, [e]);
    TotalConcat(Filter(InUnit(w), s), Filter(InUnit(w), [e]));
  }

  /** A unit that does not occur has a zero total. */
  lemma UnitTotalAbsent(s: seq<Expense>, w: string)
    requires w !in UnitSet(s)
    ensures Total(Filter(InUnit(w), s)) == 0.0
  {
    forall j | 0 <= j < |s| ensures !InUnit(w)(s[j]) {
      assert s[j].businessUnit in UnitSet(s);
    }
    FilterDropsAll(InUnit(w), s);
  }

  /** The units of the approved records are those of some approved record of the list. */
  lemma ApprovedUnits(xs: seq<Expense>)
    ensures forall u :: u in UnitSet(Filter(IsApproved, xs))
              <==> exists i :: 0 <= i < |xs| && IsApproved(xs[i]) && xs[i].businessUnit == u
  {
    var approved := Filter(IsApproved, xs);
    forall u
      ensures u in UnitSet(approved) <==> exists i :: 0 <= i < |xs| && IsApproved(xs[i]) && xs[i].businessUnit == u
    {
      if u in UnitSet(approved) {
        var j :| 0 <= j < |approved| && approved[j].businessUnit == u;
        ApprovedUnitFrom(xs, approved, j);
      }
      if exists i :: 0 <= i < |xs| && IsApproved(xs[i]) && xs[i].businessUnit == u {
        var i :| 0 <= i < |xs| && IsApproved(xs[i]) && xs[i].businessUnit == u;
        ApprovedUnitTo(xs, approved, i);
      }
    }
  }

  lemma ApprovedUnitFrom(xs: seq<Expense>, approved: seq<Expense>, j: nat)
    requires approved == Filter(IsApproved, xs) && j < |approved|
    ensures exists i :: 0 <= i < |xs| && IsApproved(xs[i]) && xs[i].businessUnit == approved[j].businessUnit
  {
    var k :| 0 <= k < |xs| && xs[k] == approved[j];
  }

  lemma ApprovedUnitTo(xs: seq<Expense>, approved: seq<Expense>, i: nat)
    requires approved == Filter(IsApproved, xs) && i < |xs| && IsApproved(xs[i])
    ensures xs[i].businessUnit in UnitSet(approved)
  {
    var k :| 0 <= k < |approved| && approved[k] == xs[i];
  }

  /** One accumulation step on the per-unit totals: the record's unit entry
      grows by its amount (starting from 0), every other entry is kept. */
  function AddToUnit(totals: map<string, real>, e: Expense): map<string, real> {
    var u := e.businessUnit;
    totals[u := (if u in totals then totals[u] else 0.0) + e.amount]
  }

  /** The step keeps the entries equal to the per-unit totals of the records seen so far. */
  lemma AddToUnitTotals(done: seq<Expense>, e: Expense, totals: map<string, real>)
    requires totals.Keys == UnitSet(done)
    requires forall w :: w in totals ==> totals[w] == Total(Filter(InUnit(w), done))
    ensures AddToUnit(totals, e).Keys == UnitSet(done + [e])
    ensures forall w :: w in AddToUnit(totals, e) ==> AddToUnit(totals, e)[w] == Total(Filter(InUnit(w), done + [e]))
  {
    var t := AddToUnit(totals, e);
    UnitSetAppend(done, e);
    forall w | w in t ensures t[w] == Total(Filter(InUnit(w), done + [e])) {
      UnitEntryStep(done, e, totals, w);
    }
  }

  lemma UnitEntryStep(done: seq<Expense>, e: Expense, totals: map<string, real>, w: string)
    requires totals.Keys == UnitSet(done)
    requires w in totals ==> totals[w] == Total(Filter(InUnit(w), done))
    requires w in AddToUnit(totals, e)
    ensures AddToUnit(totals, e)[w] == Total(Filter(InUnit(w), done + [e]))
  {
    var u := e.businessUnit;
    UnitTotalAppend(done, e, w);
    if w !in totals {
      UnitTotalAbsent(done, w);
    }
    if w == u {
      assert AddToUnit(totals, e)[w] == (if u in totals then totals[u] else 0.0) + e.amount;
    } else {
      assert AddToUnit(totals, e)[w] == totals[w];
    }
  }

  /** The unit list after a step: a unit seen for the first time is appended. */
  function NextUnits(totals: map<string, real>, units: seq<string>, e: Expense): seq<string> {
    if e.businessUnit in totals then units else units + [e.businessUnit]
  }

  /** The accumulator after the records `done`: the unit list names each key
      once, the entries are the per-unit totals, and they sum to the total. */
  predicate Accumulated(done: seq<Expense>, totals: map<string, real>, units: seq<string>) {
    && Distinct(units)
    && (forall k :: 0 <= k < |units| ==> units[k] in totals)
    && (forall u :: u in totals ==> u in units)
    && totals.Keys == UnitSet(done)
    && (forall u :: u in totals ==> totals[u] == Total(Filter(InUnit(u), done)))
    && SumValues(totals, units) == Total(done)
  }

  /** The step adds the amount to the sum over the unit list, where a new unit
      is appended to the list. */
  lemma AddToUnitSum(totals: map<string, real>, units: seq<string>, e: Expense)
    requires Distinct(units)
    requires forall k :: 0 <= k < |units| ==> units[k] in totals
    requires forall w :: w in totals ==> w in units
    ensures var t := AddToUnit(totals, e);
            var keys := NextUnits(totals, units, e);
            && Distinct(keys)
            && (forall k :: 0 <= k < |keys| ==> keys[k] in t)
            && (forall w :: w in t ==> w in keys)
            && SumValues(t, keys) == SumValues(totals, units) + e.amount
  {
    var u := e.businessUnit;
    if u in totals {
      assert AddToUnit(totals, e) == totals[u := totals[u] + e.amount];
      assert NextUnits(totals, units, e) == units;
      KnownUnitSum(totals, units, u, e.amount);
    } else {
      assert AddToUnit(totals, e) == totals[u := 0.0 + e.amount];
      assert NextUnits(totals, units, e) == units + [u];
      NewUnitSum(totals, units, u, 0.0 + e.amount);
    }
  }

  lemma KnownUnitSum(totals: map<string, real>, units: seq<string>, u: string, v: real)
    requires Distinct(units) && u in totals
    requires forall k :: 0 <= k < |units| ==> units[k] in totals
    requires forall w :: w in totals ==> w in units
    ensures var t := totals[u := totals[u] + v];
            && (forall k :: 0 <= k < |units| ==> units[k] in t)
            && (forall w :: w in t ==> w in units)
            && SumValues(t, units) == SumValues(totals, units) + v
  {
    SumValuesUpdateIn(totals, units, u, totals[u] + v);
  }

  lemma NewUnitSum(totals: map<string, real>, units: seq<string>, u: string, v: real)
    requires Distinct(units) && u !in totals
    requires forall k :: 0 <= k < |units| ==> units[k] in totals
    requires forall w :: w in totals ==> w in units
    ensures var t := totals[u := v];
            var keys := units + [u];
            && Distinct(keys)
            && (forall k :: 0 <= k < |keys| ==> keys[k] in t)
            && (forall w :: w in t ==> w in keys)
            && SumValues(t, keys) == SumValues(totals, units) + v
  {
    var t := totals[u := v];
    var keys := units + [u];
    SumValuesUpdateOther(totals, units, u, v);
    assert keys[..|units|] == units;
    assert SumValues(t, keys) == SumValues(t, units) + t[u];
  }

  lemma AccumulatedStart(s: seq<Expense>)
    ensures Accumulated(s[..0], map[], [])
  {
    assert s[..0] == [];
  }

  /** One step of the `reduce` keeps the accumulator in step with the records seen. */
  lemma AccumulateStep(done: seq<Expense>, e: Expense, totals: map<string, real>, units: seq<string>)
    requires Accumulated(done, totals, units)
    ensures Accumulated(done + [e], AddToUnit(totals, e), NextUnits(totals, units, e))
  {
    TotalConcat(done, [e]);
    assert Total([e]) == e.amount;
    AddToUnitTotals(done, e, totals);
    AddToUnitSum(totals, units, e);
    AccumulatedOf(done + [e], AddToUnit(totals, e), NextUnits(totals, units, e));
  }

  lemma AccumulatedOf(done: seq<Expense>, totals: map<string, real>, units: seq<string>)
    requires Distinct(units)
    requires forall k :: 0 <= k < |units| ==> units[k] in totals
    requires forall u :: u in totals ==> u in units
    requires totals.Keys == UnitSet(done)
    requires forall u :: u in totals ==> totals[u] == Total(Filter(InUnit(u), done))
    requires SumValues(totals, units) == Total(done)
    ensures Accumulated(done, totals, units)
  {
  }

  /** The `reduce` of `expensesByBusiness`: walks the records in order and adds
      each amount to its unit's entry, creating the entry at 0 when missing;
      the units come back in first-seen order. */
  method SumByUnit(s: seq<Expense>) returns (totals: map<string, real>, units: seq<string>)
    ensures Distinct(units)
    ensures forall k :: 0 <= k < |units| ==> units[k] in totals
    ensures forall u :: u in totals ==> u in units
    ensures totals.Keys == UnitSet(s)
    ensures forall u :: u in totals ==> totals[u] == Total(Filter(InUnit(u), s))
    ensures SumValues(totals, units) == Total(s)
  {
    totals := map[];
    units := [];
    var i := 0;
    AccumulatedStart(s);
    while i < |s|
      invariant 0 <= i <= |s|
      invariant Accumulated(s[..i], totals, units)
    {
      var e := s[i];
      var u := e.businessUnit;
      assert s[..i + 1] == s[..i] + [e];
      AccumulateStep(s[..i], e, totals, units);
      units := NextUnits(totals, units, e);
      totals := AddToUnit(totals, e);
      i := i + 1;
    }
    assert s[..i] == s;
  }
  /** `expensesByBusiness`: the per-unit sums over the approved records. Every
      entry is that unit's approved total, only units with an approved record
      appear, and the entries add up to the dashboard's approved total. */
  method ExpensesByBusiness(xs: seq<Expense>) returns (totals: map<string, real>, units: seq<string>)
    ensures Distinct(units)
    ensures forall k :: 0 <= k < |units| ==> units[k] in totals
    ensures forall u :: u in totals ==> u in units
    ensures forall u :: u in totals <==> exists i :: 0 <= i < |xs| && IsApproved(xs[i]) && xs[i].businessUnit == u
    ensures forall u :: u in totals ==> totals[u] == UnitApprovedTotal(xs, u)
    ensures SumValues(totals, units) == TotalSpent(xs)
  {
    totals, units := SumByUnit(Filter(IsApproved, xs));
    ApprovedUnits(xs);
  }
}
