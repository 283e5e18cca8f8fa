/** The first half of the spreadsheet export: folding the transactions
    into twelve monthly income buckets and six rows of twelve monthly
    category buckets, then choosing the months that carry any data. */
module Aggregation {
  import opened Common
  import opened Records

  /** The report's expense categories, in the order of the report rows. */
  const Categories: seq<string> := ["alimentacao", "lazer", "moradia", "transporte", "saude", "outros"]

  /** The row label of each category, in the same order. */
  const CategoryNames: seq<string> :=
    ["Alimenta\U{00E7}\U{00E3}o", "Lazer", "Moradia", "Transporte", "Sa\U{00FA}de", "Outros"]

  /** The column key of each month index 0..11. */
  const MonthKeys: seq<string> :=
    ["JAN", "FEV", "MAR", "ABR", "MAI", "JUN", "JUL", "AGO", "SET", "OUT", "NOV", "DEZ"]

  /** `despesasMensal[cat]`: the row of a category of the list. */
  function CategoryIndex(cat: string): (c: nat)
    requires cat in Categories
    ensures c < |Categories| && Categories[c] == cat
  {
    if cat == "alimentacao" then 0
    else if cat == "lazer" then 1
    else if cat == "moradia" then 2
    else if cat == "transporte" then 3
    else if cat == "saude" then 4
    else 5
  }

  /** No two categories of the list are the same string. */
  lemma CategoriesDistinct()
    ensures forall c, d :: 0 <= c < d < |Categories| ==> Categories[c] != Categories[d]
  {
    forall c, d | 0 <= c < d < |Categories| ensures Categories[c] != Categories[d] {
      assert Categories[c][0] != Categories[d][0];
    }
  }

  lemma IncomeIsNotExpense()
    ensures Income != Expense
  {
    assert |Income| != |Expense|;
  }

  /** `t` feeds income bucket `m`. */
  predicate IsIncomeOf(t: Transaction, m: nat)
  {
    t.kind == Income && MonthIndex(t.date) == Some(m)
  }

  /** `t` feeds the bucket of category `c` in month `m`. */
  predicate IsSpendOf(t: Transaction, c: nat, m: nat)
    requires c < |Categories|
  {
    t.kind == Expense && t.category == Categories[c] && MonthIndex(t.date) == Some(m)
  }

  function IncomeIn(m: nat): Transaction -> bool
  {
    (t: Transaction) => IsIncomeOf(t, m)
  }

  function SpendIn(c: nat, m: nat): Transaction -> bool
    requires c < |Categories|
  {
    (t: Transaction) => IsSpendOf(t, c, m)
  }

  /** The income of month `m`: the amounts of the income records dated in it. */
  function IncomeBucket(txs: seq<Transaction>, m: nat): real
  {
    SumAmounts(Filter(txs, IncomeIn(m)))
  }

  /** The spending on category `c` in month `m`. */
  function SpendBucket(txs: seq<Transaction>, c: nat, m: nat): real
    requires c < |Categories|
  {
    SumAmounts(Filter(txs, SpendIn(c, m)))
  }

  /** `receitaMensal` and `despesasMensal` as values: `income[m]` and
      `spend[c][m]`. */
  datatype Buckets = Buckets(income: seq<real>, spend: seq<seq<real>>)

  predicate WellShaped(b: Buckets)
  {
    |b.income| == 12 && |b.spend| == |Categories| &&
    forall c :: 0 <= c < |b.spend| ==> |b.spend[c]| == 12
  }

  /** The buckets a list of transactions produces. */
  function BucketsOf(txs: seq<Transaction>): (b: Buckets)
    ensures WellShaped(b)
  {
    Buckets(
      seq(12, m requires 0 <= m < 12 => IncomeBucket(txs, m)),
      seq(|Categories|, c requires 0 <= c < |Categories| =>
        seq(12, m requires 0 <= m < 12 => SpendBucket(txs, c, m))))
  }

  /** Whether a record lands in any bucket: a parsed date and either the
      income type or the expense type with one of the six categories. */
  predicate Counted(t: Transaction)
  {
    t.date.Date? && (t.kind == Income || (t.kind == Expense && t.category in Categories))
  }

  /** One more record adds its amount to the filtered sum exactly when it
      passes the filter. */
  lemma SumFilterSnoc(s: seq<Transaction>, t: Transaction, p: Transaction -> bool)
    ensures SumAmounts(Filter(s + [t], p)) == SumAmounts(Filter(s, p)) + (if p(t) then t.amount else 0.0)
  {
    FilterConcat(s, [t], p);
    assert [t][1..] == [];
    var tail := if p(t) then [t] else [];
    SumAmountsConcat(Filter(s, p), tail);
    if p(t) {
      assert tail[..0] == [];
    }
  }

  /** Appending one record adds its amount to the income bucket of its month
      when it is an income, to the bucket of its category and month when it
      is an expense with a listed category, and to no other bucket. */
  lemma RecordFeedsItsBucket(txs: seq<Transaction>, t: Transaction)
    ensures forall m :: 0 <= m < 12 ==>
      IncomeBucket(txs + [t], m) == IncomeBucket(txs, m) + (if IsIncomeOf(t, m) then t.amount else 0.0)
    ensures forall c, m :: 0 <= c < |Categories| && 0 <= m < 12 ==>
      SpendBucket(txs + [t], c, m) == SpendBucket(txs, c, m) + (if IsSpendOf(t, c, m) then t.amount else 0.0)
  {
    forall m | 0 <= m < 12 {
      SumFilterSnoc(txs, t, IncomeIn(m));
    }
    forall c, m | 0 <= c < |Categories| && 0 <= m < 12 {
      SumFilterSnoc(txs, t, SpendIn(c, m));
    }
  }

  /** A record of another type, an expense outside the six categories, or a
      date that does not parse changes no bucket. */
  lemma UncountedChangesNoBucket(txs: seq<Transaction>, t: Transaction)
    requires !Counted(t)
    ensures BucketsOf(txs + [t]) == BucketsOf(txs)
  {
    RecordFeedsItsBucket(txs, t);
    var before := BucketsOf(txs);
    var after := BucketsOf(txs + [t]);
    IncomeIsNotExpense();
    assert after.income == before.income;
    forall c | 0 <= c < |Categories| ensures after.spend[c] == before.spend[c] {
      assert forall m :: 0 <= m < 12 ==> after.spend[c][m] == before.spend[c][m];
    }
  }

  /** The `forEach` body: one record's amount added, in place, to the
      bucket it feeds, if any. */
  method Deposit(income: array<real>, spend: array2<real>, t: Transaction)
    requires income.Length == 12 && spend.Length0 == |Categories| && spend.Length1 == 12
    modifies income, spend
    ensures forall m :: 0 <= m < 12 ==>
      income[m] == old(income[m]) + (if IsIncomeOf(t, m) then t.amount else 0.0)
    ensures forall c, m :: 0 <= c < |Categories| && 0 <= m < 12 ==>
      spend[c, m] == old(spend[c, m]) + (if IsSpendOf(t, c, m) then t.amount else 0.0)
  {
    IncomeIsNotExpense();
    CategoriesDistinct();
    var month := MonthIndex(t.date);
    if t.kind == Income {
      if month.Some? {
        income[month.value] := income[month.value] + t.amount;
      }
    } else if t.kind == Expense && t.category in Categories {
      var c := CategoryIndex(t.category);
      if month.Some? {
        spend[c, month.value] := spend[c, month.value] + t.amount;
      }
    }
  }

  /** The fold of `src/App.jsx` over `receitaMensal` and `despesasMensal`,
      on arrays updated in place. */
  method Aggregate(txs: seq<Transaction>) returns (b: Buckets)
    ensures b == BucketsOf(txs)
  {
    var income := new real[12](_ => 0.0);
    var spend := new real[|Categories|, 12]((_, _) => 0.0);
    var i := 0;
    while i < |txs|
      invariant 0 <= i <= |txs|
      invariant forall m :: 0 <= m < 12 ==> income[m] == IncomeBucket(txs[..i], m)
      invariant forall c, m :: 0 <= c < |Categories| && 0 <= m < 12 ==> spend[c, m] == SpendBucket(txs[..i], c, m)
    {
      var t := txs[i];
      assert txs[..i + 1] == txs[..i] + [t];
      Deposit(income, spend, t);
      RecordFeedsItsBucket(txs[..i], t);
      i := i + 1;
    }
    assert txs[..i] == txs;
    b := Buckets(income[..], seq(|Categories|, c requires 0 <= c < |Categories| reads spend =>
      seq(12, m requires 0 <= m < 12 reads spend => spend[c, m])));
    assert b.income == BucketsOf(txs).income;
    forall c | 0 <= c < |Categories| ensures b.spend[c] == BucketsOf(txs).spend[c] {
      assert forall m :: 0 <= m < 12 ==> b.spend[c][m] == SpendBucket(txs, c, m);
    }
  }

  /** Sums over filters agree on two lists that match entry by entry in
      their amounts and in what the filter says. */
  lemma {:induction false} SumFilterAgree(a: seq<Transaction>, b: seq<Transaction>, p: Transaction -> bool)
    requires |a| == |b|
    requires forall i :: 0 <= i < |a| ==> p(a[i]) == p(b[i]) && a[i].amount == b[i].amount
    ensures SumAmounts(Filter(a, p)) == SumAmounts(Filter(b, p))
  {
    if a != [] {
      SumFilterAgree(a[1..], b[1..], p);
      var ha := if p(a[0]) then [a[0]] else [];
      var hb := if p(b[0]) then [b[0]] else [];
      SumAmountsConcat(ha, Filter(a[1..], p));
      SumAmountsConcat(hb, Filter(b[1..], p));
      assert [a[0]][..0] == [] && [b[0]][..0] == [];
    }
  }

  /** Two records that agree on everything the fold looks at. */
  predicate SameForBuckets(t: Transaction, u: Transaction)
  {
    t.kind == u.kind && t.category == u.category && t.amount == u.amount &&
    MonthIndex(t.date) == MonthIndex(u.date)
  }

  /** The buckets depend on the month of each date only: changing the year
      or the day of any record (or its id or name) changes no bucket. */
  lemma BucketsDependOnlyOnMonth(a: seq<Transaction>, b: seq<Transaction>)
    requires |a| == |b|
    requires forall i :: 0 <= i < |a| ==> SameForBuckets(a[i], b[i])
    ensures BucketsOf(a) == BucketsOf(b)
  {
    var x := BucketsOf(a);
    var y := BucketsOf(b);
    forall m | 0 <= m < 12 ensures x.income[m] == y.income[m] {
      SumFilterAgree(a, b, IncomeIn(m));
    }
    forall c | 0 <= c < |Categories| ensures x.spend[c] == y.spend[c] {
      forall m | 0 <= m < 12 ensures x.spend[c][m] == y.spend[c][m] {
        SumFilterAgree(a, b, SpendIn(c, m));
      }
    }
  }

  /** The fold does not depend on the order of the list. */
  lemma BucketsPermutation(a: seq<Transaction>, b: seq<Transaction>)
    requires multiset(a) == multiset(b)
    ensures BucketsOf(a) == BucketsOf(b)
  {
    var x := BucketsOf(a);
    var y := BucketsOf(b);
    forall m | 0 <= m < 12 ensures x.income[m] == y.income[m] {
      FilterPermutation(a, b, IncomeIn(m));
      SumAmountsPermutation(Filter(a, IncomeIn(m)), Filter(b, IncomeIn(m)));
    }
    forall c | 0 <= c < |Categories| ensures x.spend[c] == y.spend[c] {
      forall m | 0 <= m < 12 ensures x.spend[c][m] == y.spend[c][m] {
        FilterPermutation(a, b, SpendIn(c, m));
        SumAmountsPermutation(Filter(a, SpendIn(c, m)), Filter(b, SpendIn(c, m)));
      }
    }
  }

  /** A month has data when its income or one of its category buckets is
      positive. */
  predicate IsActive(b: Buckets, m: nat)
    requires WellShaped(b)
  {
    m < 12 && (b.income[m] > 0.0 || exists c :: 0 <= c < |Categories| && b.spend[c][m] > 0.0)
  }

  predicate Increasing(s: seq<nat>)
  {
    forall i, j :: 0 <= i < j < |s| ==> s[i] < s[j]
  }

  /** The months from `m` on that have data, in calendar order. */
  function ActiveFrom(b: Buckets, m: nat): (r: seq<nat>)
    requires WellShaped(b) && m <= 12
    ensures Increasing(r)
    ensures forall i :: 0 <= i < |r| ==> m <= r[i] < 12 && IsActive(b, r[i])
    ensures forall k :: m <= k < 12 && IsActive(b, k) ==> k in r
    decreases 12 - m
  {
    if m == 12 then [] else (if IsActive(b, m) then [m] else []) + ActiveFrom(b, m + 1)
  }

  /** `mesesComDados`: exactly the months with data, in calendar order. */
  function ActiveMonths(b: Buckets): (r: seq<nat>)
    requires WellShaped(b)
    ensures Increasing(r)
    ensures forall i :: 0 <= i < |r| ==> r[i] < 12 && IsActive(b, r[i])
    ensures forall m :: 0 <= m < 12 && IsActive(b, m) ==> m in r
  {
    ActiveFrom(b, 0)
  }

  lemma {:induction false} FilteredSumNonNegative(txs: seq<Transaction>, p: Transaction -> bool)
    requires AllPositive(txs)
    ensures SumAmounts(Filter(txs, p)) >= 0.0
  {
    if txs != [] {
      FilteredSumNonNegative(txs[1..], p);
      var head := if p(txs[0]) then [txs[0]] else [];
      SumAmountsConcat(head, Filter(txs[1..], p));
      assert [txs[0]][..0] == [];
    }
  }

  /** Among positive amounts, the sum of those a filter keeps is at least
      each kept amount. */
  lemma {:induction false} FilteredSumAtLeast(txs: seq<Transaction>, p: Transaction -> bool, i: nat)
    requires AllPositive(txs)
    requires i < |txs| && p(txs[i])
    ensures SumAmounts(Filter(txs, p)) >= txs[i].amount
  {
    var head := if p(txs[0]) then [txs[0]] else [];
    SumAmountsConcat(head, Filter(txs[1..], p));
    assert [txs[0]][..0] == [];
    if i == 0 {
      FilteredSumNonNegative(txs[1..], p);
    } else {
      FilteredSumAtLeast(txs[1..], p, i - 1);
    }
  }

  lemma {:induction false} EmptyFilterSum(txs: seq<Transaction>, p: Transaction -> bool)
    requires forall i :: 0 <= i < |txs| ==> !p(txs[i])
    ensures SumAmounts(Filter(txs, p)) == 0.0
  {
    if txs != [] {
      EmptyFilterSum(txs[1..], p);
    }
  }

  /** When no record lands in a bucket, every bucket is zero. */
  lemma NothingCountedAllZero(txs: seq<Transaction>)
    requires forall i :: 0 <= i < |txs| ==> !Counted(txs[i])
    ensures forall m :: 0 <= m < 12 ==> BucketsOf(txs).income[m] == 0.0
    ensures forall c, m :: 0 <= c < |Categories| && 0 <= m < 12 ==> BucketsOf(txs).spend[c][m] == 0.0
  {
    forall m | 0 <= m < 12 ensures IncomeBucket(txs, m) == 0.0 {
      EmptyFilterSum(txs, IncomeIn(m));
    }
    forall c, m | 0 <= c < |Categories| && 0 <= m < 12 ensures SpendBucket(txs, c, m) == 0.0 {
      EmptyFilterSum(txs, SpendIn(c, m));
    }
  }

  /** With positive amounts, a record that lands in a bucket makes its
      month active. */
  lemma CountedMakesActive(txs: seq<Transaction>, i: nat)
    requires AllPositive(txs)
    requires i < |txs| && Counted(txs[i])
    ensures IsActive(BucketsOf(txs), MonthIndex(txs[i].date).value)
  {
    var t := txs[i];
    var m := MonthIndex(t.date).value;
    var b := BucketsOf(txs);
    if t.kind == Income {
      assert IncomeIn(m)(t);
      FilteredSumAtLeast(txs, IncomeIn(m), i);
      assert b.income[m] == IncomeBucket(txs, m);
    } else {
      var c := CategoryIndex(t.category);
      assert SpendIn(c, m)(t);
      FilteredSumAtLeast(txs, SpendIn(c, m), i);
      assert b.spend[c][m] == SpendBucket(txs, c, m);
    }
  }

  /** With the positive amounts the form enforces, there is nothing to
      export exactly when no record lands in a bucket. */
  lemma NothingToExportIffNothingCounted(txs: seq<Transaction>)
    requires AllPositive(txs)
    ensures ActiveMonths(BucketsOf(txs)) == [] <==> forall i :: 0 <= i < |txs| ==> !Counted(txs[i])
  {
    var b := BucketsOf(txs);
    if forall i :: 0 <= i < |txs| ==> !Counted(txs[i]) {
      NothingCountedAllZero(txs);
      assert forall m :: 0 <= m < 12 ==> !IsActive(b, m);
    } else {
      var i :| 0 <= i < |txs| && Counted(txs[i]);
      CountedMakesActive(txs, i);
      assert MonthIndex(txs[i].date).value in ActiveMonths(b);
    }
  }
}
