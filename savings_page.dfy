/** The savings page: the accepted balance and the pending amount, the
    cumulative balance chart, and the submission of a new (pending) saving.
    The totals are the same sums the dashboard and the admin statistics show. */
module SavingsPage {
  import opened Types
  import opened Strings
  import opened Seqs
  import opened App

  function HasStatus(st: SavingStatus): Saving -> bool {
    (s: Saving) => s.status == st
  }

  /** `reduce((sum, s) => sum + s.amount, 0)`, folding from the left. */
  function Sum(s: seq<Saving>): int {
    if |s| == 0 then 0 else Sum(s[..|s| - 1]) + s[|s| - 1].amount
  }

  lemma {:induction false} SumConcat(a: seq<Saving>, b: seq<Saving>)
    ensures Sum(a + b) == Sum(a) + Sum(b)
    decreases |b|
  {
    if |b| > 0 {
      assert (a + b)[..|a + b| - 1] == a + b[..|b| - 1];
      SumConcat(a, b[..|b| - 1]);
    } else {
      assert a + b == a;
    }
  }

  lemma SumSingleton(x: Saving)
    ensures Sum([x]) == x.amount
  {
    assert [x][..0] == [];
  }

  lemma SumPrepend(x: Saving, s: seq<Saving>)
    ensures Sum([x] + s) == x.amount + Sum(s)
  {
    SumConcat([x], s);
    SumSingleton(x);
  }

  /** Inserting a saving into a sequence adds its amount to the sum. */
  lemma {:induction false} SumInsert(x: Saving, t: seq<Saving>, key: Saving -> int)
    ensures Sum(Insert(x, t, key)) == x.amount + Sum(t)
    decreases |t|
  {
    if |t| == 0 {
      SumSingleton(x);
    } else if key(x) <= key(t[0]) {
      SumPrepend(x, t);
    } else {
      assert t == [t[0]] + t[1..];
      SumPrepend(t[0], Insert(x, t[1..], key));
      SumInsert(x, t[1..], key);
      SumPrepend(t[0], t[1..]);
    }
  }

  /** Sorting does not change the sum. */
  lemma {:induction false} SumSortByKey(s: seq<Saving>, key: Saving -> int)
    ensures Sum(SortByKey(s, key)) == Sum(s)
    decreases |s|
  {
    if |s| > 0 {
      assert s == [s[0]] + s[1..];
      SumInsert(s[0], SortByKey(s[1..], key), key);
      SumSortByKey(s[1..], key);
      SumPrepend(s[0], s[1..]);
    }
  }

  /** The sum of the amounts of the savings with status `st`. */
  function TotalWithStatus(savings: seq<Saving>, st: SavingStatus): int {
    Sum(Filter(savings, HasStatus(st)))
  }

  /** Each saving counts in exactly one status total. */
  lemma {:induction false} StatusTotalsPartition(savings: seq<Saving>)
    ensures TotalWithStatus(savings, Accepted) + TotalWithStatus(savings, Pending)
            + TotalWithStatus(savings, Rejected) == Sum(savings)
    decreases |savings|
  {
    if |savings| > 0 {
      var init, x := savings[..|savings| - 1], savings[|savings| - 1];
      assert savings == init + [x];
      StatusTotalsPartition(init);
      FilterAppend(init, x, HasStatus(Accepted));
      FilterAppend(init, x, HasStatus(Pending));
      FilterAppend(init, x, HasStatus(Rejected));
      SumConcat(Filter(init, HasStatus(Accepted)), if x.status == Accepted then [x] else []);
      SumConcat(Filter(init, HasStatus(Pending)), if x.status == Pending then [x] else []);
      SumConcat(Filter(init, HasStatus(Rejected)), if x.status == Rejected then [x] else []);
      SumSingleton(x);
    }
  }

  /** `totalBalance` (and the dashboard's `totalSavings`, the admin's
      `totalCapital`): the accepted amounts, which is everything that is
      neither pending nor rejected. */
  function TotalBalance(savings: seq<Saving>): (r: int)
    ensures r == Sum(savings) - TotalWithStatus(savings, Pending) - TotalWithStatus(savings, Rejected)
  {
    StatusTotalsPartition(savings);
    TotalWithStatus(savings, Accepted)
  }

  /** `pendingAmount`: the amounts still waiting for review, which is
      everything that is neither accepted nor rejected. */
  function PendingAmount(savings: seq<Saving>): (r: int)
    ensures r == Sum(savings) - TotalWithStatus(savings, Accepted) - TotalWithStatus(savings, Rejected)
  {
    StatusTotalsPartition(savings);
    TotalWithStatus(savings, Pending)
  }

  /** The balance, the pending amount and the rejected amounts together make
      up all amounts, so a rejected saving is in neither the balance nor the
      pending amount. */
  lemma TotalsPartition(savings: seq<Saving>)
    ensures TotalBalance(savings) + PendingAmount(savings) + TotalWithStatus(savings, Rejected) == Sum(savings)
  {
    StatusTotalsPartition(savings);
  }

  /** The totals of a concatenation add up. */
  lemma TotalConcat(a: seq<Saving>, b: seq<Saving>, st: SavingStatus)
    ensures TotalWithStatus(a + b, st) == TotalWithStatus(a, st) + TotalWithStatus(b, st)
  {
    FilterConcat(a, b, HasStatus(st));
    SumConcat(Filter(a, HasStatus(st)), Filter(b, HasStatus(st)));
  }

  // ---------------------------------------------------------------------------
  // Chart

  /** One point of the balance chart. The date label is the point's
      `createdAt`; its locale formatting is not modelled. */
  datatype ChartPoint = ChartPoint(createdAt: int, amount: int)

  function CreatedAt(s: Saving): int { s.createdAt }

  /** The accepted savings, oldest first (a stable sort by `createdAt`). */
  function AcceptedByDate(savings: seq<Saving>): (r: seq<Saving>)
    ensures multiset(r) == multiset(Filter(savings, HasStatus(Accepted)))
    ensures SortedBy(r, CreatedAt)
  {
    SortByKey(Filter(savings, HasStatus(Accepted)), CreatedAt)
  }

  /** Every point of the chart's input is an accepted saving of the list. */
  lemma AcceptedByDateMember(savings: seq<Saving>, i: int)
    requires 0 <= i < |AcceptedByDate(savings)|
    ensures AcceptedByDate(savings)[i] in savings
    ensures AcceptedByDate(savings)[i].status == Accepted
  {
    var r := AcceptedByDate(savings);
    assert r[i] in multiset(r);
    assert r[i] in Filter(savings, HasStatus(Accepted));
  }

  /** The points of a dated sequence, each carrying `base` plus the amounts
      up to and including its own. */
  function RunningTotals(sorted: seq<Saving>, base: int): (r: seq<ChartPoint>)
    ensures |r| == |sorted|
  {
    if |sorted| == 0 then []
    else [ChartPoint(sorted[0].createdAt, base + sorted[0].amount)]
         + RunningTotals(sorted[1..], base + sorted[0].amount)
  }

  /** The balance chart over a dated sequence. */
  function Chart(sorted: seq<Saving>): seq<ChartPoint> {
    RunningTotals(sorted, 0)
  }

  /** Point `i` carries the date of the `i`-th saving and the sum of the
      first `i + 1` amounts. */
  lemma {:induction false} RunningTotalAt(sorted: seq<Saving>, base: int, i: int)
    requires 0 <= i < |sorted|
    ensures RunningTotals(sorted, base)[i] == ChartPoint(sorted[i].createdAt, base + Sum(sorted[..i + 1]))
    decreases i
  {
    if i == 0 {
      assert sorted[..1] == [sorted[0]];
      SumSingleton(sorted[0]);
    } else {
      RunningTotalAt(sorted[1..], base + sorted[0].amount, i - 1);
      assert sorted[..i + 1] == [sorted[0]] + sorted[1..][..i];
      SumPrepend(sorted[0], sorted[1..][..i]);
    }
  }

  /** The `map` of `getChartData`: the `cumulative` running total carried
      through a dated sequence. */
  method AccumulateChart(sorted: seq<Saving>) returns (points: seq<ChartPoint>)
    ensures points == Chart(sorted)
  {
    var cumulative := 0;
    points := [];
    var i := 0;
    while i < |sorted|
      invariant 0 <= i <= |sorted| && |points| == i
      invariant cumulative == Sum(sorted[..i])
      invariant forall k :: 0 <= k < i ==> points[k] == Chart(sorted)[k]
    {
      RunningTotalAt(sorted, 0, i);
      assert sorted[..i + 1][..i] == sorted[..i];
      cumulative := cumulative + sorted[i].amount;
      points := points + [ChartPoint(sorted[i].createdAt, cumulative)];
      i := i + 1;
    }
  }

  /** `getChartData`: the accepted savings in date order, accumulated. */
  method GetChartData(savings: seq<Saving>) returns (points: seq<ChartPoint>)
    ensures points == Chart(AcceptedByDate(savings))
  {
    var accepted := AcceptedByDate(savings);
    points := AccumulateChart(accepted);
  }

  /** The chart has one point per accepted saving. */
  lemma ChartLength(savings: seq<Saving>)
    ensures |Chart(AcceptedByDate(savings))| == |Filter(savings, HasStatus(Accepted))|
  {
    var sorted := AcceptedByDate(savings);
    assert |sorted| == |multiset(sorted)|;
  }

  /** The chart runs oldest first. */
  lemma ChartOldestFirst(savings: seq<Saving>)
    ensures var c := Chart(AcceptedByDate(savings));
            forall i, j :: 0 <= i < j < |c| ==> c[i].createdAt <= c[j].createdAt
  {
    var sorted := AcceptedByDate(savings);
    forall i, j | 0 <= i < j < |sorted| ensures Chart(sorted)[i].createdAt <= Chart(sorted)[j].createdAt {
      ChartDateOrder(sorted, i, j);
    }
  }

  /** The last point of the chart is the balance. */
  lemma ChartEndsAtBalance(savings: seq<Saving>)
    requires |Chart(AcceptedByDate(savings))| > 0
    ensures var c := Chart(AcceptedByDate(savings));
            c[|c| - 1].amount == TotalBalance(savings)
  {
    var sorted := AcceptedByDate(savings);
    RunningTotalAt(sorted, 0, |sorted| - 1);
    assert sorted[..|sorted|] == sorted;
    SumSortByKey(Filter(savings, HasStatus(Accepted)), CreatedAt);
  }

  lemma ChartDateOrder(sorted: seq<Saving>, i: int, j: int)
    requires SortedBy(sorted, CreatedAt) && 0 <= i < j < |sorted|
    ensures Chart(sorted)[i].createdAt <= Chart(sorted)[j].createdAt
  {
    RunningTotalAt(sorted, 0, i);
    RunningTotalAt(sorted, 0, j);
    assert CreatedAt(sorted[i]) <= CreatedAt(sorted[j]);
  }

  /** Over positive amounts, a later point of the chart is strictly higher. */
  lemma ChartRisesOver(sorted: seq<Saving>, i: int, j: int)
    requires forall k :: 0 <= k < |sorted| ==> sorted[k].amount > 0
    requires 0 <= i < j < |sorted|
    ensures Chart(sorted)[i].amount < Chart(sorted)[j].amount
  {
    RunningTotalAt(sorted, 0, i);
    RunningTotalAt(sorted, 0, j);
    var tail := sorted[i + 1..j + 1];
    assert sorted[..j + 1] == sorted[..i + 1] + tail;
    SumConcat(sorted[..i + 1], tail);
    PositiveSum(tail);
  }

  /** With positive amounts the balance only grows along the chart. */
  lemma ChartRises(savings: seq<Saving>, i: int, j: int)
    requires forall k :: 0 <= k < |savings| ==> savings[k].amount > 0
    requires 0 <= i < j < |Chart(AcceptedByDate(savings))|
    ensures Chart(AcceptedByDate(savings))[i].amount < Chart(AcceptedByDate(savings))[j].amount
  {
    var sorted := AcceptedByDate(savings);
    forall k | 0 <= k < |sorted| ensures sorted[k].amount > 0 {
      AcceptedByDateMember(savings, k);
    }
    ChartRisesOver(sorted, i, j);
  }

  lemma {:induction false} PositiveSum(s: seq<Saving>)
    requires |s| > 0 && forall k :: 0 <= k < |s| ==> s[k].amount > 0
    ensures Sum(s) > 0
    decreases |s|
  {
    if |s| > 1 {
      PositiveSum(s[..|s| - 1]);
    } else {
      SumSingleton(s[0]);
      assert s == [s[0]];
    }
  }

  // ---------------------------------------------------------------------------
  // Submitting a saving

  const ProofImage := "https://picsum.photos/seed/proof/400/600"

  /** The saving `handleSubmitSaving` builds: pending, by `me`, dated `now`. */
  function NewSaving(me: User, amount: int, payment: PaymentMethod, now: int): (s: Saving)
    ensures s.status == Pending && s.userId == me.uid && s.userName == me.displayName
    ensures s.amount == amount && s.paymentMethod == payment && s.createdAt == now
    ensures s.savingId == IntToString(now) && s.proofImage == ProofImage
  {
    Saving(IntToString(now), me.uid, me.displayName, amount, payment, ProofImage, Pending, now)
  }

  /** `handleSubmitSaving` on the list: `parsed` is `parseFloat` of the
      amount field, none when it is not a number. A missing or non-positive
      amount changes nothing; otherwise one pending saving by `me` goes in front. */
  function Submitted(savings: seq<Saving>, me: User, parsed: Option<int>, payment: PaymentMethod, now: int): (r: seq<Saving>)
    ensures parsed.None? || parsed.value <= 0 ==> r == savings
    ensures parsed.Some? && parsed.value > 0 ==>
              |r| == |savings| + 1 && r[1..] == savings
              && r[0].status == Pending && r[0].userId == me.uid && r[0].amount == parsed.value
              && r[0].paymentMethod == payment && r[0].createdAt == now
  {
    if parsed.None? || parsed.value <= 0 then savings
    else [NewSaving(me, parsed.value, payment, now)] + savings
  }

  /** One saving counts in the total of its own status only. */
  lemma TotalSingleton(x: Saving, st: SavingStatus)
    ensures TotalWithStatus([x], st) == if x.status == st then x.amount else 0
  {
    FilterSingleton(x, HasStatus(st));
    SumSingleton(x);
  }

  /** A submission adds its amount to the pending amount and leaves the
      balance as it was. */
  lemma SubmittedTotals(savings: seq<Saving>, me: User, parsed: Option<int>, payment: PaymentMethod, now: int)
    ensures var r := Submitted(savings, me, parsed, payment, now);
            TotalBalance(r) == TotalBalance(savings)
            && PendingAmount(r) == PendingAmount(savings) + (if parsed.Some? && parsed.value > 0 then parsed.value else 0)
  {
    if parsed.Some? && parsed.value > 0 {
      var x := NewSaving(me, parsed.value, payment, now);
      assert Submitted(savings, me, parsed, payment, now) == [x] + savings;
      TotalConcat([x], savings, Accepted);
      TotalConcat([x], savings, Pending);
      TotalSingleton(x, Accepted);
      TotalSingleton(x, Pending);
    }
  }

  class SavingsPageState {
    const app: AppState
    const me: User
    var showAddForm: bool
    /** The text of the amount field. */
    var amount: string
    var payment: PaymentMethod

    constructor (app: AppState, me: User)
      ensures this.app == app && this.me == me
      ensures !showAddForm && amount == "" && payment == QRIS
    {
      this.app := app;
      this.me := me;
      showAddForm := false;
      amount := "";
      payment := QRIS;
    }

    /** `handleSubmitSaving`; `parsed` is `parseFloat(amount)`. */
    method SubmitSaving(parsed: Option<int>, now: int)
      modifies app`savings, this`showAddForm, this`amount
      ensures app.savings == Submitted(old(app.savings), me, parsed, payment, now)
      ensures parsed.None? || parsed.value <= 0 ==> showAddForm == old(showAddForm) && amount == old(amount)
      ensures parsed.Some? && parsed.value > 0 ==> !showAddForm && amount == ""
    {
      if parsed.None? || parsed.value <= 0 {
        return;
      }
      app.savings := [NewSaving(me, parsed.value, payment, now)] + app.savings;
      showAddForm := false;
      amount := "";
    }
  }
}
