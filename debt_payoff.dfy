/**
 * The debt payoff planner: a list of debts, a strategy (avalanche or
 * snowball) and a fixed extra monthly payment, simulated month by month until
 * every debt is paid off.
 */
module DebtPayoff {
  import opened Numerics
  import opened Seqs

  /** One debt as the page edits it; rate is an annual percentage. */
  datatype Debt = Debt(id: string, name: string, balance: real, rate: real, payment: real)

  datatype Strategy = Avalanche | Snowball

  /** One line of the payoff schedule; totalInterest is always written as 0. */
  datatype ScheduleEntry = ScheduleEntry(debtName: string, monthsPaid: nat, totalInterest: real)

  /** The page's results (the payoff date is derived from the clock and left out). */
  datatype PayoffResult = PayoffResult(
    totalDebt: real,
    totalInterest: int,
    monthsToFree: nat,
    schedule: seq<ScheduleEntry>)

  // ------------------------------------------------------------------
  // List edits

  /** The blank row that "Add debt" appends; the clock-derived id is a parameter. */
  function BlankDebt(newId: string): Debt
  {
    Debt(newId, "", 0.0, 0.0, 0.0)
  }

  function AddDebt(debts: seq<Debt>, newId: string): (r: seq<Debt>)
    ensures |r| == |debts| + 1 && r[..|debts|] == debts
    ensures r[|debts|].id == newId && r[|debts|].balance == 0.0
    ensures r[|debts|].rate == 0.0 && r[|debts|].payment == 0.0
  {
    debts + [BlankDebt(newId)]
  }

  function KeepUnless(id: string): Debt -> bool
  {
    (d: Debt) => d.id != id
  }

  function RemoveDebt(debts: seq<Debt>, id: string): (r: seq<Debt>)
    ensures forall d :: d in r <==> d in debts && d.id != id
    ensures |r| <= |debts|
  {
    FilterMembers(KeepUnless(id), debts);
    Filter(KeepUnless(id), debts)
  }

  /** Removing an id that no debt carries changes nothing. */
  lemma {:induction false} RemoveAbsentId(debts: seq<Debt>, id: string)
    requires forall d :: d in debts ==> d.id != id
    ensures RemoveDebt(debts, id) == debts
  {
    FilterAll(KeepUnless(id), debts);
  }

  /** Removal keeps the relative order of the debts it keeps. */
  lemma {:induction false} RemoveDebtKeepsOrder(a: seq<Debt>, b: seq<Debt>, id: string)
    ensures RemoveDebt(a + b, id) == RemoveDebt(a, id) + RemoveDebt(b, id)
  {
    FilterConcat(KeepUnless(id), a, b);
  }

  /** The one field an edit sets, with its new value. */
  datatype DebtField =
    | SetId(newId: string)
    | SetName(newName: string)
    | SetBalance(newBalance: real)
    | SetRate(newRate: real)
    | SetPayment(newPayment: real)

  function WithField(d: Debt, f: DebtField): (r: Debt)
    ensures r.id == (if f.SetId? then f.newId else d.id)
    ensures r.name == (if f.SetName? then f.newName else d.name)
    ensures r.balance == (if f.SetBalance? then f.newBalance else d.balance)
    ensures r.rate == (if f.SetRate? then f.newRate else d.rate)
    ensures r.payment == (if f.SetPayment? then f.newPayment else d.payment)
  {
    match f
    case SetId(v) => d.(id := v)
    case SetName(v) => d.(name := v)
    case SetBalance(v) => d.(balance := v)
    case SetRate(v) => d.(rate := v)
    case SetPayment(v) => d.(payment := v)
  }

  function EditIfMatch(id: string, f: DebtField): Debt -> Debt
  {
    (d: Debt) => if d.id == id then WithField(d, f) else d
  }

  function UpdateDebt(debts: seq<Debt>, id: string, f: DebtField): (r: seq<Debt>)
    ensures |r| == |debts|
    ensures forall i :: 0 <= i < |debts| && debts[i].id != id ==> r[i] == debts[i]
    ensures forall i :: 0 <= i < |debts| && debts[i].id == id ==> r[i] == WithField(debts[i], f)
  {
    Map(EditIfMatch(id, f), debts)
  }

  // ------------------------------------------------------------------
  // Which debts are simulated, and in which order

  /** Only debts with a positive balance, rate and payment enter the plan. */
  predicate Simulated(d: Debt)
  {
    d.balance > 0.0 && d.rate > 0.0 && d.payment > 0.0
  }

  function ValidDebts(debts: seq<Debt>): seq<Debt>
  {
    Filter(Simulated, debts)
  }

  /** The debts that enter the plan are exactly the simulated ones, in the order they were listed. */
  lemma ValidDebtsInOrder(debts: seq<Debt>)
    ensures var valid := ValidDebts(debts);
      && (forall d :: d in valid <==> d in debts && Simulated(d))
      && var idx := FilterIndices(Simulated, debts);
         && |idx| == |valid| && Increasing(idx)
         && forall k :: 0 <= k < |idx| ==> valid[k] == debts[idx[k]]
  {
    FilterMembers(Simulated, debts);
  }

  /** A freshly added debt does not change the plan. */
  lemma {:induction false} AddedDebtIsIgnored(debts: seq<Debt>, newId: string)
    ensures ValidDebts(AddDebt(debts, newId)) == ValidDebts(debts)
  {
    FilterConcat(Simulated, debts, [BlankDebt(newId)]);
    assert Filter(Simulated, [BlankDebt(newId)]) == [];
  }

  function TotalBalance(ds: seq<Debt>): real
  {
    if ds == [] then 0.0 else ds[0].balance + TotalBalance(ds[1..])
  }

  /** The total of the simulated debts is positive whenever any debt is simulated. */
  lemma {:induction false} TotalBalancePositive(ds: seq<Debt>)
    requires forall k :: 0 <= k < |ds| ==> ds[k].balance > 0.0
    ensures ds != [] ==> TotalBalance(ds) > 0.0
    ensures TotalBalance(ds) >= 0.0
  {
    if ds != [] {
      TotalBalancePositive(ds[1..]);
    }
  }

  /**
   * `a` goes strictly before `b` under the strategy's comparator:
   * avalanche by rate, highest first; snowball by balance, smallest first.
   */
  predicate Precedes(st: Strategy, a: Debt, b: Debt)
  {
    match st
    case Avalanche => a.rate > b.rate
    case Snowball => a.balance < b.balance
  }

  predicate SortedFor(st: Strategy, ds: seq<Debt>)
  {
    forall i, j :: 0 <= i < j < |ds| ==> !Precedes(st, ds[j], ds[i])
  }

  /** Inserts `x` before the first element that does not strictly precede it (so ties keep their order). */
  function Insert(st: Strategy, x: Debt, ds: seq<Debt>): (r: seq<Debt>)
    requires SortedFor(st, ds)
    ensures SortedFor(st, r)
    ensures multiset(r) == multiset(ds) + multiset{x}
    ensures |r| == |ds| + 1
  {
    if ds == [] || !Precedes(st, ds[0], x) then [x] + ds
    else
      var tail := Insert(st, x, ds[1..]);
      TailFollows(st, x, ds, tail);
      PrependSorted(st, ds[0], tail);
      assert ds == [ds[0]] + ds[1..];
      [ds[0]] + tail
  }

  /** Every element of the recursive insertion may follow the head it is placed after. */
  lemma {:induction false} TailFollows(st: Strategy, x: Debt, ds: seq<Debt>, tail: seq<Debt>)
    requires SortedFor(st, ds) && ds != [] && Precedes(st, ds[0], x)
    requires multiset(tail) == multiset(ds[1..]) + multiset{x}
    ensures forall k :: 0 <= k < |tail| ==> !Precedes(st, tail[k], ds[0])
  {
    forall k | 0 <= k < |tail| ensures !Precedes(st, tail[k], ds[0]) {
      var y := tail[k];
      assert y in multiset(tail);
      if y != x {
        assert y in multiset(ds[1..]);
        var j :| 0 <= j < |ds[1..]| && ds[1..][j] == y;
        assert ds[j + 1] == y;
      }
    }
  }

  /** A sorted list stays sorted with a head that nothing in it precedes. */
  lemma {:induction false} PrependSorted(st: Strategy, x: Debt, ds: seq<Debt>)
    requires SortedFor(st, ds)
    requires forall k :: 0 <= k < |ds| ==> !Precedes(st, ds[k], x)
    ensures SortedFor(st, [x] + ds)
  {
    var r := [x] + ds;
    forall i, j | 0 <= i < j < |r| ensures !Precedes(st, r[j], r[i]) {
      assert r[j] == ds[j - 1];
      if i > 0 {
        assert r[i] == ds[i - 1];
      }
    }
  }

  /** The stable sort the page applies once, before the first month. */
  function SortDebts(st: Strategy, ds: seq<Debt>): (r: seq<Debt>)
    ensures SortedFor(st, r)
    ensures multiset(r) == multiset(ds)
    ensures |r| == |ds|
  {
    if ds == [] then [] else
    assert ds == [ds[0]] + ds[1..];
    Insert(st, ds[0], SortDebts(st, ds[1..]))
  }

  /** The debts the comparator cannot tell apart from `x`: the same rate (avalanche) or balance (snowball). */
  function TiedWith(st: Strategy, x: Debt): Debt -> bool
  {
    (d: Debt) => !Precedes(st, d, x) && !Precedes(st, x, d)
  }

  /** Two debts one of which strictly precedes the other are not both tied with `x`, so they may swap places among the tied ones. */
  lemma {:induction false} TiedSwap(st: Strategy, x: Debt, a: Debt, b: Debt, rest: seq<Debt>)
    requires Precedes(st, a, b)
    ensures var t := TiedWith(st, x);
      Filter(t, [a]) + (Filter(t, [b]) + Filter(t, rest)) == Filter(t, [b]) + (Filter(t, [a]) + Filter(t, rest))
  {
    var t := TiedWith(st, x);
    assert [a][1..] == [] && [b][1..] == [];
    assert !(t(a) && t(b));
  }

  /** Insertion places the new debt ahead of every debt tied with it. */
  lemma {:induction false} InsertKeepsTies(st: Strategy, x: Debt, y: Debt, ds: seq<Debt>)
    requires SortedFor(st, ds)
    ensures Filter(TiedWith(st, x), Insert(st, y, ds)) == Filter(TiedWith(st, x), [y] + ds)
  {
    if ds != [] && Precedes(st, ds[0], y) {
      var t := TiedWith(st, x);
      var a, rest := ds[0], ds[1..];
      var inserted := Insert(st, y, rest);
      assert ds == [a] + rest;
      assert Insert(st, y, ds) == [a] + inserted;
      calc {
        Filter(t, [a] + inserted);
        { FilterConcat(t, [a], inserted); }
        Filter(t, [a]) + Filter(t, inserted);
        { InsertKeepsTies(st, x, y, rest); FilterConcat(t, [y], rest); }
        Filter(t, [a]) + (Filter(t, [y]) + Filter(t, rest));
        { TiedSwap(st, x, a, y, rest); }
        Filter(t, [y]) + (Filter(t, [a]) + Filter(t, rest));
        { FilterConcat(t, [a], rest); }
        Filter(t, [y]) + Filter(t, ds);
        { FilterConcat(t, [y], ds); }
        Filter(t, [y] + ds);
      }
    }
  }

  /** The sort is stable: debts tied under the strategy keep their relative order. */
  lemma {:induction false} SortDebtsStable(st: Strategy, x: Debt, ds: seq<Debt>)
    ensures Filter(TiedWith(st, x), SortDebts(st, ds)) == Filter(TiedWith(st, x), ds)
  {
    if ds != [] {
      var t := TiedWith(st, x);
      var a, rest := ds[0], ds[1..];
      var sortedRest := SortDebts(st, rest);
      assert ds == [a] + rest;
      calc {
        Filter(t, SortDebts(st, ds));
        Filter(t, Insert(st, a, sortedRest));
        { InsertKeepsTies(st, x, a, sortedRest); }
        Filter(t, [a] + sortedRest);
        { FilterConcat(t, [a], sortedRest); }
        Filter(t, [a]) + Filter(t, sortedRest);
        { SortDebtsStable(st, x, rest); }
        Filter(t, [a]) + Filter(t, rest);
        { FilterConcat(t, [a], rest); }
        Filter(t, ds);
      }
    }
  }

  // ------------------------------------------------------------------
  // One month of the simulation

  /** A month's interest on a debt: balance * rate / 100 / 12. */
  function MonthlyInterest(d: Debt): (i: real)
    ensures d.balance >= 0.0 && d.rate >= 0.0 ==> i >= 0.0
  {
    ProductSign(d.balance, d.rate);
    (d.balance * d.rate / 100.0) / 12.0
  }

  lemma {:induction false} ProductSign(a: real, b: real)
    ensures a >= 0.0 && b >= 0.0 ==> a * b >= 0.0
  {
    if a >= 0.0 && b > 0.0 {
      SignOfProduct(a, b);
    }
  }

  /** The minimum payment: its principal part is capped at the balance. */
  function PayMinimum(d: Debt): (r: Debt)
    ensures SameDebt(r, d)
    ensures r.balance >= 0.0
    ensures r.balance <= 0.0 <==> d.payment - MonthlyInterest(d) >= d.balance
  {
    var monthlyInterest := MonthlyInterest(d);
    var principalPayment := Min(d.payment - monthlyInterest, d.balance);
    d.(balance := d.balance - principalPayment)
  }

  /** The extra payment goes to the first remaining debt only, capped at its balance. */
  function ApplyExtra(ds: seq<Debt>, extra: real): (r: seq<Debt>)
    ensures |r| == |ds|
    ensures forall k :: 0 < k < |ds| ==> r[k] == ds[k]
    ensures extra <= 0.0 ==> r == ds
    ensures |ds| > 0 && extra > 0.0 ==>
      SameDebt(r[0], ds[0]) && r[0].balance == Max(ds[0].balance - extra, 0.0)
  {
    if |ds| > 0 && extra > 0.0 then
      var target := ds[0];
      ds[0 := target.(balance := target.balance - Min(extra, target.balance))]
    else ds
  }

  /** The debts after the minimum payments and the extra payment of one month. */
  function MonthEnd(ds: seq<Debt>, extra: real): (r: seq<Debt>)
    ensures |r| == |ds|
    ensures forall k :: 0 <= k < |ds| ==> SameDebt(r[k], ds[k]) && r[k].balance >= 0.0
  {
    ApplyExtra(Map(PayMinimum, ds), extra)
  }

  /** The same debt, whatever its balance now. */
  predicate SameDebt(a: Debt, b: Debt)
  {
    a.id == b.id && a.name == b.name && a.rate == b.rate && a.payment == b.payment
  }

  predicate Owing(d: Debt)
  {
    d.balance > 0.0
  }

  predicate Cleared(d: Debt)
  {
    !Owing(d)
  }

  function DebtName(d: Debt): string
  {
    d.name
  }

  function EntryName(e: ScheduleEntry): string
  {
    e.debtName
  }

  function EntryFor(month: nat): Debt -> ScheduleEntry
  {
    (d: Debt) => ScheduleEntry(d.name, month, 0.0)
  }

  /** What the month loop relies on for a debt still owing: the payment beats the interest by at least delta. */
  predicate Healthy(d: Debt, delta: real)
  {
    d.balance > 0.0 && d.rate > 0.0 && d.payment > 0.0 && d.payment - MonthlyInterest(d) >= delta
  }

  /** Interest grows with the balance. */
  lemma {:induction false} InterestMonotone(a: Debt, b: Debt)
    requires a.rate == b.rate && a.rate >= 0.0 && a.balance <= b.balance
    ensures MonthlyInterest(a) <= MonthlyInterest(b)
  {
    MulLe(a.balance, b.balance, a.rate / 1200.0);
    assert (a.balance * a.rate / 100.0) / 12.0 == (a.rate / 1200.0) * a.balance;
    assert (b.balance * b.rate / 100.0) / 12.0 == (b.rate / 1200.0) * b.balance;
  }

  /**
   * One debt through one month: it either clears or loses at least delta, and
   * if it still owes, it is still healthy.
   */
  lemma {:induction false} PayMinimumProgress(d: Debt, delta: real)
    requires Healthy(d, delta) && delta > 0.0
    ensures var r := PayMinimum(d);
      && r.balance >= 0.0
      && (r.balance == 0.0 || r.balance <= d.balance - delta)
  {
  }

  lemma {:induction false} HealthyWhenLower(d: Debt, e: Debt, delta: real)
    requires Healthy(d, delta)
    requires e.rate == d.rate && e.payment == d.payment && 0.0 < e.balance <= d.balance
    ensures Healthy(e, delta)
  {
    InterestMonotone(e, d);
  }

  /** A debt's share of the termination measure: how many more delta-sized steps its balance allows. */
  ghost function Pot(d: Debt, delta: real): nat
    requires delta > 0.0
  {
    if d.balance > 0.0 then
      SignOfProduct(d.balance / delta, delta);
      (d.balance / delta).Floor + 1
    else 0
  }

  ghost function Potential(ds: seq<Debt>, delta: real): nat
    requires delta > 0.0
  {
    if ds == [] then 0 else Pot(ds[0], delta) + Potential(ds[1..], delta)
  }

  lemma {:induction false} PotDrop(x: Debt, y: Debt, delta: real)
    requires delta > 0.0 && x.balance > 0.0
    requires y.balance <= 0.0 || y.balance <= x.balance - delta
    ensures Pot(y, delta) + 1 <= Pot(x, delta)
  {
    if y.balance > 0.0 {
      var u, v := y.balance / delta, x.balance / delta;
      assert u * delta == y.balance && v * delta == x.balance;
      assert (v - 1.0 - u) * delta == x.balance - delta - y.balance;
      SignOfProduct(v - 1.0 - u, delta);
      assert u <= v - 1.0;
    } else {
      SignOfProduct(x.balance / delta, delta);
    }
  }

  /** Dropping cleared debts leaves the measure unchanged. */
  lemma {:induction false} PotentialOfOwing(ds: seq<Debt>, delta: real)
    requires delta > 0.0
    ensures Potential(Filter(Owing, ds), delta) == Potential(ds, delta)
  {
    if ds != [] {
      PotentialOfOwing(ds[1..], delta);
      var rest := Filter(Owing, ds[1..]);
      if Owing(ds[0]) {
        assert Filter(Owing, ds) == [ds[0]] + rest;
        assert ([ds[0]] + rest)[1..] == rest;
      } else {
        assert Filter(Owing, ds) == rest;
      }
    }
  }

  /** If every debt clears or loses delta, the measure falls by at least the number of debts. */
  lemma {:induction false} PotentialDrop(a: seq<Debt>, b: seq<Debt>, delta: real)
    requires delta > 0.0 && |a| == |b|
    requires forall k :: 0 <= k < |a| ==> a[k].balance > 0.0
    requires forall k :: 0 <= k < |a| ==> b[k].balance <= 0.0 || b[k].balance <= a[k].balance - delta
    ensures Potential(b, delta) + |a| <= Potential(a, delta)
  {
    if a != [] {
      PotDrop(a[0], b[0], delta);
      PotentialDrop(a[1..], b[1..], delta);
    }
  }

  /** Everything the month loop needs to know about one month's step. */
  lemma {:induction false} MonthStep(before: seq<Debt>, extra: real, delta: real)
    requires delta > 0.0 && before != []
    requires forall k :: 0 <= k < |before| ==> Healthy(before[k], delta)
    ensures var after := MonthEnd(before, extra);
      && |after| == |before|
      && Map(DebtName, after) == Map(DebtName, before)
      && (forall k :: 0 <= k < |after| ==> after[k].balance >= 0.0)
      && (forall k :: 0 <= k < |Filter(Owing, after)| ==> Healthy(Filter(Owing, after)[k], delta))
      && Potential(Filter(Owing, after), delta) < Potential(before, delta)
  {
    var paid := Map(PayMinimum, before);
    var after := MonthEnd(before, extra);
    forall k | 0 <= k < |before|
      ensures after[k].balance >= 0.0
      ensures after[k].balance <= 0.0 || after[k].balance <= before[k].balance - delta
      ensures after[k].balance <= before[k].balance
      ensures after[k].rate == before[k].rate && after[k].payment == before[k].payment
      ensures after[k].name == before[k].name
    {
      PayMinimumProgress(before[k], delta);
    }
    var owing := Filter(Owing, after);
    FilterMembers(Owing, after);
    forall k | 0 <= k < |owing| ensures Healthy(owing[k], delta) {
      assert owing[k] in after;
      var j :| 0 <= j < |after| && after[j] == owing[k];
      HealthyWhenLower(before[j], after[j], delta);
    }
    assert Map(DebtName, after) == Map(DebtName, before);
    PotentialDrop(before, after, delta);
    PotentialOfOwing(after, delta);
  }

  /** The smallest margin payment - interest over a list of debts. */
  function MinMargin(ds: seq<Debt>): (m: real)
    requires ds != []
    ensures forall k :: 0 <= k < |ds| ==> ds[k].payment - MonthlyInterest(ds[k]) >= m
    ensures exists k :: 0 <= k < |ds| && ds[k].payment - MonthlyInterest(ds[k]) == m
  {
    var here := ds[0].payment - MonthlyInterest(ds[0]);
    if |ds| == 1 then here
    else
      var rest := MinMargin(ds[1..]);
      assert forall k :: 1 <= k < |ds| ==> ds[k] == ds[1..][k - 1];
      Min(here, rest)
  }

  /** Every entry is dated in months 1..month and records no interest. */
  predicate MonthsWithin(schedule: seq<ScheduleEntry>, month: nat)
  {
    forall k :: 0 <= k < |schedule| ==> 1 <= schedule[k].monthsPaid <= month && schedule[k].totalInterest == 0.0
  }

  /** Entries appear in the order their debts were paid off. */
  predicate MonthsAscending(schedule: seq<ScheduleEntry>)
  {
    forall a, b :: 0 <= a < b < |schedule| ==> schedule[a].monthsPaid <= schedule[b].monthsPaid
  }

  /**
   * What the schedule records after `month` months: every simulated debt is
   * either still in `remaining` or listed once by name, months never go back,
   * and when nothing remains the last entry is the final month.
   */
  ghost predicate Bookkept(schedule: seq<ScheduleEntry>, remaining: seq<Debt>, sorted: seq<Debt>, month: nat)
  {
    && |schedule| + |remaining| == |sorted|
    && multiset(Map(EntryName, schedule)) + multiset(Map(DebtName, remaining)) == multiset(Map(DebtName, sorted))
    && MonthsWithin(schedule, month)
    && MonthsAscending(schedule)
    && (remaining == [] ==> |schedule| > 0 && schedule[|schedule| - 1].monthsPaid == month)
  }

  /** The entries written for a month's paid-off debts carry those debts' names. */
  lemma {:induction false} EntryNames(month: nat, ds: seq<Debt>)
    ensures Map(EntryName, Map(EntryFor(month), ds)) == Map(DebtName, ds)
  {
  }

  /** Splitting a month's debts into paid-off and owing loses no name. */
  lemma {:induction false} ClearedSplit(after: seq<Debt>)
    ensures |Filter(Cleared, after)| + |Filter(Owing, after)| == |after|
    ensures multiset(Map(DebtName, Filter(Cleared, after))) + multiset(Map(DebtName, Filter(Owing, after)))
         == multiset(Map(DebtName, after))
  {
    FilterSplit(Cleared, Owing, after);
    MapFilterSplit(DebtName, Cleared, Owing, after);
  }

  /** Recording the debts that cleared in `month` and keeping the ones still owing keeps the books. */
  lemma {:induction false} BookkeptStep(schedule: seq<ScheduleEntry>, before: seq<Debt>, paidOff: seq<Debt>, owing: seq<Debt>,
                     sorted: seq<Debt>, month: nat)
    requires month >= 1
    requires Bookkept(schedule, before, sorted, month - 1)
    requires |paidOff| + |owing| == |before|
    requires multiset(Map(DebtName, paidOff)) + multiset(Map(DebtName, owing)) == multiset(Map(DebtName, before))
    requires owing == [] ==> paidOff != []
    ensures Bookkept(schedule + Map(EntryFor(month), paidOff), owing, sorted, month)
  {
    var newEntries := Map(EntryFor(month), paidOff);
    var s' := schedule + newEntries;
    var oldNames, newNames := Map(EntryName, schedule), Map(EntryName, newEntries);
    EntryNames(month, paidOff);
    MapConcat(EntryName, schedule, newEntries);
    assert Map(EntryName, s') == oldNames + newNames;
    assert multiset(oldNames + newNames) == multiset(oldNames) + multiset(newNames);
    MultisetRegroup(multiset(Map(EntryName, schedule)), multiset(Map(DebtName, paidOff)),
                    multiset(Map(DebtName, owing)), multiset(Map(DebtName, before)), multiset(Map(DebtName, sorted)));
    MonthsKept(schedule, newEntries, month);
    if owing == [] {
      assert s'[|s'| - 1] == newEntries[|newEntries| - 1];
    }
  }

  /** Appending entries dated `month` keeps the months bounded and in order. */
  lemma {:induction false} MonthsKept(schedule: seq<ScheduleEntry>, newEntries: seq<ScheduleEntry>, month: nat)
    requires month >= 1
    requires MonthsWithin(schedule, month - 1) && MonthsAscending(schedule)
    requires forall k :: 0 <= k < |newEntries| ==> newEntries[k].monthsPaid == month && newEntries[k].totalInterest == 0.0
    ensures MonthsWithin(schedule + newEntries, month)
    ensures MonthsAscending(schedule + newEntries)
  {
    var s' := schedule + newEntries;
    forall a, b | 0 <= a < b < |s'| ensures s'[a].monthsPaid <= s'[b].monthsPaid {
      if b >= |schedule| {
        assert s'[b] == newEntries[b - |schedule|];
        if a >= |schedule| {
          assert s'[a] == newEntries[a - |schedule|];
        }
      }
    }
  }

  // ------------------------------------------------------------------
  // The plan

  /** The interest charged in one month over a list of debts. */
  function MonthInterest(ds: seq<Debt>): real
  {
    if ds == [] then 0.0 else MonthlyInterest(ds[0]) + MonthInterest(ds[1..])
  }

  lemma {:induction false} MonthInterestNonNegative(ds: seq<Debt>)
    requires forall k :: 0 <= k < |ds| ==> ds[k].balance >= 0.0 && ds[k].rate >= 0.0
    ensures MonthInterest(ds) >= 0.0
  {
    if ds != [] {
      MonthInterestNonNegative(ds[1..]);
    }
  }

  lemma {:induction false} MonthInterestStep(ds: seq<Debt>, i: nat)
    requires i < |ds|
    ensures MonthInterest(ds[i..]) == MonthlyInterest(ds[i]) + MonthInterest(ds[i + 1..])
  {
    assert ds[i..][1..] == ds[i + 1..];
  }

  // ------------------------------------------------------------------
  // The plan month by month

  /** The debts still owing at the end of a month that begins with `ds`. */
  function NextOwing(ds: seq<Debt>, extra: real): seq<Debt>
  {
    Filter(Owing, MonthEnd(ds, extra))
  }

  /** The debts a month that begins with `ds` pays off. */
  function ClearedIn(ds: seq<Debt>, extra: real): seq<Debt>
  {
    Filter(Cleared, MonthEnd(ds, extra))
  }

  /** The debts still owing after `months` months of the plan; after the first month each has a positive balance. */
  function OwingAfter(ds: seq<Debt>, extra: real, months: nat): (r: seq<Debt>)
    ensures months > 0 ==> forall k :: 0 <= k < |r| ==> r[k].balance > 0.0
  {
    if months == 0 then ds else NextOwing(OwingAfter(ds, extra, months - 1), extra)
  }

  /** Nothing is owing after `months` months, and something still was after every earlier month. */
  predicate DebtFreeAfter(ds: seq<Debt>, extra: real, months: nat)
  {
    && OwingAfter(ds, extra, months) == []
    && forall k :: 0 <= k < months ==> OwingAfter(ds, extra, k) != []
  }

  /** The interest charged over the first `months` months: each month's interest on the debts it begins with. */
  function InterestOver(ds: seq<Debt>, extra: real, months: nat): real
  {
    if months == 0 then 0.0
    else InterestOver(ds, extra, months - 1) + MonthInterest(OwingAfter(ds, extra, months - 1))
  }

  /** The schedule after `months` months: month m lists, in order, the debts it paid off. */
  function ScheduleOver(ds: seq<Debt>, extra: real, months: nat): seq<ScheduleEntry>
  {
    if months == 0 then []
    else ScheduleOver(ds, extra, months - 1) + Map(EntryFor(months), ClearedIn(OwingAfter(ds, extra, months - 1), extra))
  }

  /** The month the plan becomes debt-free is unique. */
  lemma DebtFreeMonthUnique(ds: seq<Debt>, extra: real, m: nat, n: nat)
    requires DebtFreeAfter(ds, extra, m) && DebtFreeAfter(ds, extra, n)
    ensures m == n
  {
    assert m < n ==> OwingAfter(ds, extra, m) != [];
    assert n < m ==> OwingAfter(ds, extra, n) != [];
  }

  /** A debt whose minimum payment does not beat its interest: without extra money it only grows. */
  predicate Stuck(d: Debt)
  {
    d.balance > 0.0 && d.rate >= 0.0 && d.payment <= MonthlyInterest(d)
  }

  /** The minimum payment leaves a stuck debt stuck, and its balance does not fall. */
  lemma {:induction false} StuckStaysStuck(d: Debt)
    requires Stuck(d)
    ensures Stuck(PayMinimum(d)) && SameDebt(PayMinimum(d), d)
    ensures PayMinimum(d).balance >= d.balance
  {
    InterestMonotone(d, PayMinimum(d));
  }

  /** One month without extra money: a stuck debt comes out of it still owing and still stuck. */
  lemma {:induction false} StuckMonth(before: seq<Debt>, extra: real, e: Debt)
    requires extra <= 0.0 && e in before && Stuck(e)
    ensures PayMinimum(e) in NextOwing(before, extra)
    ensures Stuck(PayMinimum(e)) && SameDebt(PayMinimum(e), e)
  {
    var i :| 0 <= i < |before| && before[i] == e;
    var paid := Map(PayMinimum, before);
    assert MonthEnd(before, extra) == paid;
    StuckStaysStuck(e);
    assert paid[i] == PayMinimum(e);
    FilterMembers(Owing, paid);
  }

  /** With no positive extra payment a stuck debt is still owing, and still stuck, after every month. */
  lemma {:induction false} StuckDebtStaysOwing(ds: seq<Debt>, extra: real, d: Debt, months: nat)
    requires extra <= 0.0 && d in ds && Stuck(d)
    ensures exists e :: e in OwingAfter(ds, extra, months) && Stuck(e) && SameDebt(e, d)
  {
    if months == 0 {
      assert d in OwingAfter(ds, extra, 0);
    } else {
      StuckDebtStaysOwing(ds, extra, d, months - 1);
      var before := OwingAfter(ds, extra, months - 1);
      var e :| e in before && Stuck(e) && SameDebt(e, d);
      StuckMonth(before, extra, e);
      assert OwingAfter(ds, extra, months) == NextOwing(before, extra);
    }
  }

  /**
   * The page's loop never ends when the extra payment is not positive and
   * some simulated debt's payment does not beat its interest: no month is the
   * debt-free month.
   */
  lemma {:induction false} StuckPlanNeverEnds(debts: seq<Debt>, st: Strategy, extra: real, d: Debt, months: nat)
    requires extra <= 0.0 && d in debts && Simulated(d) && d.payment <= MonthlyInterest(d)
    ensures OwingAfter(SortDebts(st, ValidDebts(debts)), extra, months) != []
    ensures !DebtFreeAfter(SortDebts(st, ValidDebts(debts)), extra, months)
  {
    var sorted := SortDebts(st, ValidDebts(debts));
    FilterMembers(Simulated, debts);
    assert d in multiset(sorted);
    StuckDebtStaysOwing(sorted, extra, d, months);
  }

  /** `e` records a debt that month e.monthsPaid paid off: one still owing when that month began. */
  predicate PaidOffIn(ds: seq<Debt>, extra: real, e: ScheduleEntry)
  {
    && e.monthsPaid >= 1
    && e.totalInterest == 0.0
    && exists d :: d in ClearedIn(OwingAfter(ds, extra, e.monthsPaid - 1), extra) && e.debtName == d.name
  }

  /** The i-th entry a month books records a debt that month paid off. */
  lemma BlockEntryPaidOff(ds: seq<Debt>, extra: real, month: nat, i: nat)
    requires month > 0
    requires i < |ClearedIn(OwingAfter(ds, extra, month - 1), extra)|
    ensures var e := Map(EntryFor(month), ClearedIn(OwingAfter(ds, extra, month - 1), extra))[i];
      e.monthsPaid == month && PaidOffIn(ds, extra, e)
  {
    var cleared := ClearedIn(OwingAfter(ds, extra, month - 1), extra);
    var e := Map(EntryFor(month), cleared)[i];
    assert e == ScheduleEntry(cleared[i].name, month, 0.0);
    assert cleared[i] in cleared;
  }

  /** Every entry of the schedule is dated with the month in which its debt's balance reached zero or below. */
  lemma {:induction false} BookedInClearingMonth(ds: seq<Debt>, extra: real, months: nat)
    ensures forall e :: e in ScheduleOver(ds, extra, months) ==> e.monthsPaid <= months && PaidOffIn(ds, extra, e)
  {
    if months > 0 {
      BookedInClearingMonth(ds, extra, months - 1);
      var prev := ScheduleOver(ds, extra, months - 1);
      var block := Map(EntryFor(months), ClearedIn(OwingAfter(ds, extra, months - 1), extra));
      var s := prev + block;
      assert s == ScheduleOver(ds, extra, months);
      forall e | e in s ensures e.monthsPaid <= months && PaidOffIn(ds, extra, e) {
        if e in prev {
          assert e.monthsPaid <= months - 1 && PaidOffIn(ds, extra, e);
        } else {
          var i :| 0 <= i < |block| && block[i] == e;
          BlockEntryPaidOff(ds, extra, months, i);
        }
      }
    }
  }

  /** A debt a month pays off is entered under that month. */
  lemma ClearedDebtBooked(ds: seq<Debt>, extra: real, month: nat, d: Debt)
    requires month > 0
    requires d in ClearedIn(OwingAfter(ds, extra, month - 1), extra)
    ensures ScheduleEntry(d.name, month, 0.0) in Map(EntryFor(month), ClearedIn(OwingAfter(ds, extra, month - 1), extra))
  {
    var cleared := ClearedIn(OwingAfter(ds, extra, month - 1), extra);
    var i :| 0 <= i < |cleared| && cleared[i] == d;
    assert Map(EntryFor(month), cleared)[i] == ScheduleEntry(d.name, month, 0.0);
  }

  /** A debt month k + 1 pays off stays entered in the schedule of every later month. */
  lemma {:induction false} BookedFromThenOn(ds: seq<Debt>, extra: real, k: nat, months: nat, d: Debt)
    requires k < months
    requires d in ClearedIn(OwingAfter(ds, extra, k), extra)
    ensures ScheduleEntry(d.name, k + 1, 0.0) in ScheduleOver(ds, extra, months)
    decreases months
  {
    var prev := ScheduleOver(ds, extra, months - 1);
    var block := Map(EntryFor(months), ClearedIn(OwingAfter(ds, extra, months - 1), extra));
    assert ScheduleOver(ds, extra, months) == prev + block;
    if k == months - 1 {
      ClearedDebtBooked(ds, extra, months, d);
    } else {
      BookedFromThenOn(ds, extra, k, months - 1, d);
    }
  }

  /** Conversely, every debt a month pays off is entered under that month. */
  lemma ClearedDebtsAreBooked(ds: seq<Debt>, extra: real, months: nat)
    ensures forall k, d :: 0 <= k < months && d in ClearedIn(OwingAfter(ds, extra, k), extra)
              ==> ScheduleEntry(d.name, k + 1, 0.0) in ScheduleOver(ds, extra, months)
  {
    forall k, d | 0 <= k < months && d in ClearedIn(OwingAfter(ds, extra, k), extra)
      ensures ScheduleEntry(d.name, k + 1, 0.0) in ScheduleOver(ds, extra, months)
    {
      BookedFromThenOn(ds, extra, k, months, d);
    }
  }

  /**
   * One month of the plan: the minimum payment on every remaining debt, then
   * the extra payment to the first one. Returns the debts and the month's interest.
   */
  method PayMonth(debts: seq<Debt>, extraPayment: real) returns (remainingDebts: seq<Debt>, interest: real)
    ensures remainingDebts == MonthEnd(debts, extraPayment)
    ensures interest == MonthInterest(debts)
  {
    remainingDebts := debts;
    interest := 0.0;
    var i := 0;
    while i < |remainingDebts|
      invariant 0 <= i <= |debts|
      invariant remainingDebts == Map(PayMinimum, debts[..i]) + debts[i..]
      invariant interest + MonthInterest(debts[i..]) == MonthInterest(debts)
    {
      var debt := remainingDebts[i];
      MapPrefixStep(PayMinimum, debts, i);
      MonthInterestStep(debts, i);
      interest := interest + MonthlyInterest(debt);
      remainingDebts := remainingDebts[i := PayMinimum(debt)];
      i := i + 1;
    }
    assert debts[..i] == debts && debts[i..] == [];
    var remainingExtraPayment := extraPayment;
    if |remainingDebts| > 0 && remainingExtraPayment > 0.0 {
      var targetDebt := remainingDebts[0];
      var extraPrincipal := Min(remainingExtraPayment, targetDebt.balance);
      remainingDebts := remainingDebts[0 := targetDebt.(balance := targetDebt.balance - extraPrincipal)];
    }
  }

  /** The debts the month loop starts from: all owing, each payment beating its interest. */
  predicate Payable(ds: seq<Debt>)
  {
    forall k :: 0 <= k < |ds| ==> Simulated(ds[k]) && ds[k].payment > MonthlyInterest(ds[k])
  }

  /** Every debt of a payable list is healthy for the list's smallest margin, and that margin is positive. */
  lemma {:induction false} PayableHealthy(ds: seq<Debt>)
    requires ds != [] && Payable(ds)
    ensures MinMargin(ds) > 0.0
    ensures forall k :: 0 <= k < |ds| ==> Healthy(ds[k], MinMargin(ds))
  {
  }

  /** The simulated debts, sorted, are payable when every simulated debt's payment beats its interest. */
  lemma {:induction false} SortedPayable(debts: seq<Debt>, st: Strategy)
    requires forall d :: d in debts && Simulated(d) ==> d.payment > MonthlyInterest(d)
    ensures Payable(SortDebts(st, ValidDebts(debts)))
  {
    var valid := ValidDebts(debts);
    var sorted := SortDebts(st, valid);
    FilterMembers(Simulated, debts);
    forall k | 0 <= k < |sorted| ensures Simulated(sorted[k]) && sorted[k].payment > MonthlyInterest(sorted[k]) {
      assert sorted[k] in multiset(valid);
    }
  }

  /**
   * `remaining` is the sorted list with some debts taken out and the others
   * left in their sorted order: remaining[k] is the debt at sorted position
   * origin[k], and the positions increase. So remaining[0], the debt the
   * extra payment goes to, is the earliest debt in strategy order still owing.
   */
  ghost predicate SelectedFrom(remaining: seq<Debt>, sorted: seq<Debt>, origin: seq<nat>)
  {
    && |origin| == |remaining|
    && Increasing(origin)
    && (forall k :: 0 <= k < |origin| ==> origin[k] < |sorted| && SameDebt(remaining[k], sorted[origin[k]]))
  }

  ghost function Positions(n: nat): (r: seq<nat>)
    ensures |r| == n && Increasing(r)
    ensures forall k :: 0 <= k < n ==> r[k] == k
  {
    seq(n, k => k)
  }

  /** The sorted positions of the debts that Filter keeps. */
  ghost function Pick(origin: seq<nat>, idx: seq<nat>): (r: seq<nat>)
    requires forall k :: 0 <= k < |idx| ==> idx[k] < |origin|
    ensures |r| == |idx|
    ensures forall k :: 0 <= k < |idx| ==> r[k] == origin[idx[k]]
  {
    seq(|idx|, k requires 0 <= k < |idx| => origin[idx[k]])
  }

  /** Dropping the paid-off debts keeps the others in sorted order. */
  lemma {:induction false} SelectedStep(before: seq<Debt>, after: seq<Debt>, sorted: seq<Debt>, origin: seq<nat>)
    requires SelectedFrom(before, sorted, origin)
    requires |after| == |before| && forall k :: 0 <= k < |after| ==> SameDebt(after[k], before[k])
    ensures SelectedFrom(Filter(Owing, after), sorted, Pick(origin, FilterIndices(Owing, after)))
  {
    var idx := FilterIndices(Owing, after);
    var o := Pick(origin, idx);
    forall a, b | 0 <= a < b < |o| ensures o[a] < o[b] {
      assert idx[a] < idx[b];
    }
  }

  /** Every remaining debt still shrinks by at least `delta` a month. */
  predicate AllHealthy(ds: seq<Debt>, delta: real)
  {
    forall k :: 0 <= k < |ds| ==> Healthy(ds[k], delta)
  }

  /**
   * One pass of the month loop keeps its invariants: the debts still owing stay
   * healthy and in sorted order, the measure drops, and the books stay kept.
   */
  lemma {:induction false} MonthKeeps(schedule: seq<ScheduleEntry>, before: seq<Debt>, after: seq<Debt>, extra: real,
                    sorted: seq<Debt>, month: nat, origin: seq<nat>, delta: real)
    requires after == MonthEnd(before, extra)
    requires month >= 1 && delta > 0.0 && before != [] && AllHealthy(before, delta)
    requires Bookkept(schedule, before, sorted, month - 1)
    requires SelectedFrom(before, sorted, origin)
    ensures var owing := Filter(Owing, after);
      && AllHealthy(owing, delta)
      && Potential(owing, delta) < Potential(before, delta)
      && Bookkept(schedule + Map(EntryFor(month), Filter(Cleared, after)), owing, sorted, month)
      && SelectedFrom(owing, sorted, Pick(origin, FilterIndices(Owing, after)))
  {
    MonthStep(before, extra, delta);
    ClearedSplit(after);
    BookkeptStep(schedule, before, Filter(Cleared, after), Filter(Owing, after), sorted, month);
    SelectedStep(before, after, sorted, origin);
  }

  /**
   * What holds at the top of every month: the debts still owing shrink by at
   * least delta a month, the books are kept, and the remaining debts are
   * picked in order from the sorted list.
   */
  ghost predicate LoopInvariant(remaining: seq<Debt>, schedule: seq<ScheduleEntry>, sorted: seq<Debt>, month: nat,
                                origin: seq<nat>, delta: real)
  {
    && delta > 0.0 && AllHealthy(remaining, delta)
    && Bookkept(schedule, remaining, sorted, month)
    && SelectedFrom(remaining, sorted, origin)
  }

  /** Before the first month the whole sorted list remains and nothing is scheduled. */
  lemma LoopEntry(sorted: seq<Debt>)
    requires sorted != [] && Payable(sorted)
    ensures LoopInvariant(sorted, [], sorted, 0, Positions(|sorted|), MinMargin(sorted))
  {
    PayableHealthy(sorted);
    NothingBookedYet(sorted);
    AllSelected(sorted);
  }

  lemma NothingBookedYet(sorted: seq<Debt>)
    requires sorted != []
    ensures Bookkept([], sorted, sorted, 0)
  {
    assert Map(EntryName, []) == [];
  }

  lemma AllSelected(sorted: seq<Debt>)
    ensures SelectedFrom(sorted, sorted, Positions(|sorted|))
  {
  }

  /** The loop's variables after `month` months are the plan's: what is owing, the interest so far and the schedule. */
  predicate Follows(remaining: seq<Debt>, totalInterest: real, schedule: seq<ScheduleEntry>,
                    sorted: seq<Debt>, extra: real, month: nat)
  {
    && remaining == OwingAfter(sorted, extra, month)
    && (forall k :: 0 <= k < month ==> OwingAfter(sorted, extra, k) != [])
    && totalInterest == InterestOver(sorted, extra, month)
    && schedule == ScheduleOver(sorted, extra, month)
  }

  /** One more month of the loop keeps following the plan. */
  lemma FollowsStep(remaining: seq<Debt>, totalInterest: real, schedule: seq<ScheduleEntry>,
                    sorted: seq<Debt>, extra: real, month: nat)
    requires Follows(remaining, totalInterest, schedule, sorted, extra, month) && remaining != []
    ensures Follows(NextOwing(remaining, extra), totalInterest + MonthInterest(remaining),
                    schedule + Map(EntryFor(month + 1), ClearedIn(remaining, extra)), sorted, extra, month + 1)
  {
    assert OwingAfter(sorted, extra, month) != [];
  }

  /** The sorted positions of the debts still owing after `months` months. */
  ghost function OriginAfter(sorted: seq<Debt>, extra: real, months: nat): (r: seq<nat>)
    ensures |r| == |OwingAfter(sorted, extra, months)|
  {
    if months == 0 then Positions(|sorted|)
    else Pick(OriginAfter(sorted, extra, months - 1), FilterIndices(Owing, MonthEnd(OwingAfter(sorted, extra, months - 1), extra)))
  }

  /** The loop invariant holds of the plan after each of the first `months` months, and before the first. */
  ghost predicate OnPlan(sorted: seq<Debt>, extra: real, months: nat)
    requires sorted != []
  {
    && LoopInvariant(OwingAfter(sorted, extra, months), ScheduleOver(sorted, extra, months), sorted, months,
                     OriginAfter(sorted, extra, months), MinMargin(sorted))
    && (months > 0 ==> OnPlan(sorted, extra, months - 1))
  }

  /** Healthy debts are charged no negative interest. */
  lemma HealthyInterestNonNegative(ds: seq<Debt>, delta: real)
    requires AllHealthy(ds, delta)
    ensures MonthInterest(ds) >= 0.0
  {
    forall k | 0 <= k < |ds| ensures ds[k].balance >= 0.0 && ds[k].rate >= 0.0 {
      assert Healthy(ds[k], delta);
    }
    MonthInterestNonNegative(ds);
  }

  /** While debts are owing, another month keeps the plan's invariant and lowers the measure. */
  lemma PlanStep(sorted: seq<Debt>, extra: real, months: nat)
    requires sorted != [] && OnPlan(sorted, extra, months) && OwingAfter(sorted, extra, months) != []
    ensures OnPlan(sorted, extra, months + 1)
    ensures Potential(OwingAfter(sorted, extra, months + 1), MinMargin(sorted))
          < Potential(OwingAfter(sorted, extra, months), MinMargin(sorted))
    ensures MonthInterest(OwingAfter(sorted, extra, months)) >= 0.0
  {
    var before := OwingAfter(sorted, extra, months);
    HealthyInterestNonNegative(before, MinMargin(sorted));
    MonthKeeps(ScheduleOver(sorted, extra, months), before, MonthEnd(before, extra), extra,
               sorted, months + 1, OriginAfter(sorted, extra, months), MinMargin(sorted));
  }

  /** Up to the month the plan is debt-free, it keeps the loop invariant. */
  lemma {:induction false} PlanHolds(sorted: seq<Debt>, extra: real, months: nat)
    requires sorted != [] && Payable(sorted)
    requires forall k :: 0 <= k < months ==> OwingAfter(sorted, extra, k) != []
    ensures OnPlan(sorted, extra, months)
  {
    if months == 0 {
      LoopEntry(sorted);
    } else {
      PlanHolds(sorted, extra, months - 1);
      PlanStep(sorted, extra, months - 1);
    }
  }

  /** While debts are owing, a month lowers the measure and charges no negative interest. */
  lemma PlanShrinks(sorted: seq<Debt>, extra: real, months: nat)
    requires sorted != [] && Payable(sorted)
    requires forall k :: 0 <= k <= months ==> OwingAfter(sorted, extra, k) != []
    ensures Potential(OwingAfter(sorted, extra, months + 1), MinMargin(sorted))
          < Potential(OwingAfter(sorted, extra, months), MinMargin(sorted))
    ensures MonthInterest(OwingAfter(sorted, extra, months)) >= 0.0
  {
    PlanHolds(sorted, extra, months);
    PlanStep(sorted, extra, months);
  }

  /** The schedule of a plan that is debt-free after `months` months keeps the books. */
  lemma PlanEnds(sorted: seq<Debt>, extra: real, months: nat)
    requires sorted != [] && Payable(sorted) && DebtFreeAfter(sorted, extra, months)
    ensures Bookkept(ScheduleOver(sorted, extra, months), [], sorted, months)
  {
    PlanHolds(sorted, extra, months);
  }

  /**
   * One month of calculatePayoff: every remaining debt is paid, the ones
   * paid off are added to the schedule under this month, and only the ones
   * still owing remain.
   */
  method MonthPass(remainingDebts: seq<Debt>, extraPayment: real, schedule: seq<ScheduleEntry>, currentMonth: nat)
    returns (stillOwing: seq<Debt>, monthInterest: real, newSchedule: seq<ScheduleEntry>)
    ensures stillOwing == NextOwing(remainingDebts, extraPayment)
    ensures monthInterest == MonthInterest(remainingDebts)
    ensures newSchedule == schedule + Map(EntryFor(currentMonth), ClearedIn(remainingDebts, extraPayment))
  {
    var paid;
    paid, monthInterest := PayMonth(remainingDebts, extraPayment);

    // Paid-off debts go to the schedule and leave the list.
    var paidOffDebts := Filter(Cleared, paid);
    stillOwing := Filter(Owing, paid);
    newSchedule := schedule + Map(EntryFor(currentMonth), paidOffDebts);
  }

  /**
   * The month loop of calculatePayoff: pays every remaining debt each month,
   * moves the paid-off ones to the schedule, and stops when none is left.
   */
  method PayOffAll(sortedDebts: seq<Debt>, extraPayment: real)
    returns (currentMonth: nat, totalInterest: real, schedule: seq<ScheduleEntry>)
    requires sortedDebts != [] && Payable(sortedDebts)
    ensures DebtFreeAfter(sortedDebts, extraPayment, currentMonth)
    ensures totalInterest == InterestOver(sortedDebts, extraPayment, currentMonth)
    ensures schedule == ScheduleOver(sortedDebts, extraPayment, currentMonth)
    ensures totalInterest >= 0.0
    ensures Bookkept(schedule, [], sortedDebts, currentMonth)
  {
    totalInterest := 0.0;
    currentMonth := 0;
    var remainingDebts := sortedDebts;
    schedule := [];
    ghost var delta := MinMargin(sortedDebts);

    while remainingDebts != []
      invariant Follows(remainingDebts, totalInterest, schedule, sortedDebts, extraPayment, currentMonth)
      invariant totalInterest >= 0.0
      decreases Potential(remainingDebts, delta)
    {
      PlanShrinks(sortedDebts, extraPayment, currentMonth);
      FollowsStep(remainingDebts, totalInterest, schedule, sortedDebts, extraPayment, currentMonth);
      currentMonth := currentMonth + 1;
      var monthInterest;
      remainingDebts, monthInterest, schedule := MonthPass(remainingDebts, extraPayment, schedule, currentMonth);
      totalInterest := totalInterest + monthInterest;
    }
    PlanEnds(sortedDebts, extraPayment, currentMonth);
  }

  /**
   * What the results promise about the simulated debts `valid`: their total,
   * a non-negative rounded interest, and a schedule that lists each debt once
   * by name, in payoff order, ending in the debt-free month.
   */
  predicate Describes(r: PayoffResult, valid: seq<Debt>)
  {
    && r.totalDebt == TotalBalance(valid)
    && r.totalDebt > 0.0
    && r.totalInterest >= 0
    && r.monthsToFree >= 1
    && |r.schedule| == |valid|
    && multiset(Map(EntryName, r.schedule)) == multiset(Map(DebtName, valid))
    && MonthsWithin(r.schedule, r.monthsToFree)
    && MonthsAscending(r.schedule)
    && r.schedule != [] && r.schedule[|r.schedule| - 1].monthsPaid == r.monthsToFree
  }

  /** Once nothing remains, the books describe the unsorted list of simulated debts. */
  lemma {:induction false} ScheduleComplete(valid: seq<Debt>, sorted: seq<Debt>, schedule: seq<ScheduleEntry>, months: nat,
                         totalInterest: real)
    requires valid != [] && forall k :: 0 <= k < |valid| ==> valid[k].balance > 0.0
    requires multiset(sorted) == multiset(valid) && |sorted| == |valid|
    requires Bookkept(schedule, [], sorted, months)
    requires totalInterest >= 0.0
    ensures Describes(PayoffResult(TotalBalance(valid), Round(totalInterest), months, schedule), valid)
  {
    MapPermutation(DebtName, sorted, valid);
    TotalBalancePositive(valid);
    RoundNonNegative(totalInterest);
  }

  /**
   * calculatePayoff: filters and sorts the debts, then runs the month loop on
   * copies. With nothing to simulate the current results stay as they are.
   * The loop in the source has no cap; it ends because every simulated debt's
   * payment is required to beat its first month's interest.
   */
  method CalculatePayoff(debts: seq<Debt>, strategy: Strategy, extraPayment: real, current: PayoffResult)
    returns (r: PayoffResult)
    requires forall d :: d in debts && Simulated(d) ==> d.payment > MonthlyInterest(d)
    ensures ValidDebts(debts) == [] ==> r == current
    ensures ValidDebts(debts) != [] ==> Describes(r, ValidDebts(debts))
    ensures ValidDebts(debts) != [] ==>
              var sorted := SortDebts(strategy, ValidDebts(debts));
              && DebtFreeAfter(sorted, extraPayment, r.monthsToFree)
              && r.totalInterest == Round(InterestOver(sorted, extraPayment, r.monthsToFree))
              && r.schedule == ScheduleOver(sorted, extraPayment, r.monthsToFree)
  {
    var validDebts := ValidDebts(debts);
    if validDebts == [] {
      return current;
    }
    var sortedDebts := SortDebts(strategy, validDebts);
    SortedPayable(debts, strategy);
    var currentMonth, totalInterest, schedule := PayOffAll(sortedDebts, extraPayment);

    ScheduleComplete(validDebts, sortedDebts, schedule, currentMonth, totalInterest);
    r := PayoffResult(TotalBalance(validDebts), Round(totalInterest), currentMonth, schedule);
  }
}
