/** The expense tracker (Assignment1/ExpenseTrackerApp/App.js): the
    `AppProvider` ledger state, the dashboard totals, the reports screen's
    per-category and per-month roll-ups, and the input checks of the add and
    budget screens. */
module ExpenseTracker {
  import opened Collections
  import opened Text
  import opened JsNumber

  datatype TxType = Income | Expense

  datatype Transaction = Transaction(id: string, amount: real, category: string, date: string, kind: TxType)

  datatype Profile = Profile(name: string, email: string)

  /** One pie-chart slice of `categoryData` (its random colour and legend
      styling are not modelled). */
  datatype Slice = Slice(name: string, value: real)

  function Amount(t: Transaction): real { t.amount }
  function Category(t: Transaction): string { t.category }
  predicate IsIncome(t: Transaction) { t.kind == Income }
  predicate IsExpense(t: Transaction) { t.kind == Expense }
  function SliceValue(s: Slice): real { s.value }

  // ---------------------------------------------------------------------
  // Dashboard totals

  function TotalIncome(txs: seq<Transaction>): real
  {
    SumOf(Filter(txs, IsIncome), Amount)
  }

  function Expenses(txs: seq<Transaction>): seq<Transaction>
  {
    Filter(txs, IsExpense)
  }

  function TotalExpenses(txs: seq<Transaction>): real
  {
    SumOf(Expenses(txs), Amount)
  }

  function Balance(txs: seq<Transaction>): real
  {
    TotalIncome(txs) - TotalExpenses(txs)
  }

  /** Adding a transaction moves exactly one of the two totals, by its
      amount, and the balance with it. */
  lemma AddTransactionTotals(t: Transaction, txs: seq<Transaction>)
    ensures TotalIncome([t] + txs) == TotalIncome(txs) + (if t.kind == Income then t.amount else 0.0)
    ensures TotalExpenses([t] + txs) == TotalExpenses(txs) + (if t.kind == Expense then t.amount else 0.0)
    ensures Balance([t] + txs) == Balance(txs) + (if t.kind == Income then t.amount else -t.amount)
  {
    assert ([t] + txs)[1..] == txs;
    if t.kind == Income {
      SumOfCons(t, Filter(txs, IsIncome), Amount);
    } else {
      SumOfCons(t, Filter(txs, IsExpense), Amount);
    }
  }

  // ---------------------------------------------------------------------
  // Reports: spending per category

  /** `[...new Set(transactions.map(t => t.category))]`. */
  function Categories(txs: seq<Transaction>): seq<string>
  {
    Dedup(MapSeq(txs, Category))
  }

  /** Every category occurs once, in the order in which the (newest-first)
      transactions first mention it. */
  lemma CategoriesSpec(txs: seq<Transaction>)
    ensures Distinct(Categories(txs))
    ensures forall c :: c in Categories(txs) <==> exists i :: 0 <= i < |txs| && txs[i].category == c
    ensures forall i, j :: 0 <= i < j < |Categories(txs)| ==>
      && Categories(txs)[i] in MapSeq(txs, Category) && Categories(txs)[j] in MapSeq(txs, Category)
      && FirstIndex(MapSeq(txs, Category), Categories(txs)[i]) < FirstIndex(MapSeq(txs, Category), Categories(txs)[j])
  {
    var names := MapSeq(txs, Category);
    DedupElements(names);
    forall c ensures c in Categories(txs) <==> exists i :: 0 <= i < |txs| && txs[i].category == c {
      if c in Categories(txs) {
        var k :| 0 <= k < |Categories(txs)| && Categories(txs)[k] == c;
        var i :| 0 <= i < |names| && names[i] == c;
        assert txs[i].category == c;
      }
      if exists i :: 0 <= i < |txs| && txs[i].category == c {
        var i :| 0 <= i < |txs| && txs[i].category == c;
        assert names[i] == c;
      }
    }
    forall i, j | 0 <= i < j < |Categories(txs)|
      ensures Categories(txs)[i] in names && Categories(txs)[j] in names
      ensures FirstIndex(names, Categories(txs)[i]) < FirstIndex(names, Categories(txs)[j])
    {
      DedupOrder(names, i, j);
    }
  }

  /** The pie value of a category: its expenses added up. */
  function CategoryValue(txs: seq<Transaction>, c: string): real
  {
    SumOf(Filter(txs, (t: Transaction) => t.category == c && t.kind == Expense), Amount)
  }

  /** `categoryData`: one slice per category whose expenses add up to more
      than 0, in category order. */
  function CategoryData(txs: seq<Transaction>): seq<Slice>
  {
    Filter(MapSeq(Categories(txs), c => Slice(c, CategoryValue(txs, c))), (s: Slice) => s.value > 0.0)
  }

  /** Each slice carries its category's expense total, which is positive;
      no category has two slices; and a category has a slice exactly when
      some transaction names it and its expenses add up to more than 0. */
  lemma CategoryDataSpec(txs: seq<Transaction>)
    ensures forall k :: 0 <= k < |CategoryData(txs)| ==>
      CategoryData(txs)[k].value == CategoryValue(txs, CategoryData(txs)[k].name) > 0.0
    ensures forall k, l :: 0 <= k < l < |CategoryData(txs)| ==> CategoryData(txs)[k].name != CategoryData(txs)[l].name
    ensures forall c ::
      (exists k :: 0 <= k < |CategoryData(txs)| && CategoryData(txs)[k].name == c)
      <==> (c in Categories(txs) && CategoryValue(txs, c) > 0.0)
  {
    var cats := Categories(txs);
    var value := (c: string) => CategoryValue(txs, c);
    var all := MapSeq(cats, c => Slice(c, CategoryValue(txs, c)));
    var keep := (s: Slice) => s.value > 0.0;
    assert CategoryData(txs) == Filter(all, keep);
    CategoriesSpec(txs);
    PositiveSlices(cats, value, all, keep);
    PositiveSlicesCover(cats, value, all, keep);
    forall c | c in cats && CategoryValue(txs, c) > 0.0
      ensures exists k :: 0 <= k < |CategoryData(txs)| && CategoryData(txs)[k].name == c
    {
      var i :| 0 <= i < |cats| && cats[i] == c;
      assert value(cats[i]) > 0.0;
    }
  }

  /** Keeping the positive slices of one slice per distinct name: what is
      kept is positive and correctly valued, and names stay distinct. */
  lemma {:induction false} PositiveSlices(cats: seq<string>, value: string -> real, all: seq<Slice>, keep: Slice -> bool)
    requires |all| == |cats| && Distinct(cats)
    requires forall i :: 0 <= i < |all| ==> all[i] == Slice(cats[i], value(cats[i]))
    requires forall i :: 0 <= i < |all| ==> keep(all[i]) == (all[i].value > 0.0)
    ensures forall k :: 0 <= k < |Filter(all, keep)| ==>
      && Filter(all, keep)[k].name in cats
      && Filter(all, keep)[k].value == value(Filter(all, keep)[k].name) > 0.0
    ensures forall k, l :: 0 <= k < l < |Filter(all, keep)| ==> Filter(all, keep)[k].name != Filter(all, keep)[l].name
  {
    if all != [] {
      PositiveSlices(cats[1..], value, all[1..], keep);
      var rest := Filter(all[1..], keep);
      assert forall k :: 0 <= k < |rest| ==> rest[k].name in cats[1..];
      assert cats[0] !in cats[1..];
    }
  }

  /** Every name with a positive value keeps its slice. */
  lemma {:induction false} PositiveSlicesCover(cats: seq<string>, value: string -> real, all: seq<Slice>, keep: Slice -> bool)
    requires |all| == |cats|
    requires forall i :: 0 <= i < |all| ==> all[i] == Slice(cats[i], value(cats[i]))
    requires forall i :: 0 <= i < |all| ==> keep(all[i]) == (all[i].value > 0.0)
    ensures forall i :: 0 <= i < |cats| && value(cats[i]) > 0.0 ==>
      exists k :: 0 <= k < |Filter(all, keep)| && Filter(all, keep)[k].name == cats[i]
  {
    if all != [] {
      PositiveSlicesCover(cats[1..], value, all[1..], keep);
      var rest := Filter(all[1..], keep);
      var r := Filter(all, keep);
      if keep(all[0]) {
        assert r == [all[0]] + rest;
      } else {
        assert r == rest;
      }
      forall i | 0 <= i < |cats| && value(cats[i]) > 0.0
        ensures exists k :: 0 <= k < |r| && r[k].name == cats[i]
      {
        if i == 0 {
          assert r[0] == all[0];
        } else {
          assert cats[1..][i - 1] == cats[i];
          var k :| 0 <= k < |rest| && rest[k].name == cats[i];
          if keep(all[0]) {
            assert r[k + 1] == rest[k];
          } else {
            assert r[k] == rest[k];
          }
        }
      }
      assert r == Filter(all, keep);
      assert forall i :: 0 <= i < |cats| && value(cats[i]) > 0.0 ==>
        exists k :: 0 <= k < |Filter(all, keep)| && Filter(all, keep)[k].name == cats[i];
    }
  }

  /** The filter in `CategoryValue` picks out one bucket of the expenses
      grouped by category. */
  lemma CategoryValueIsBucket(txs: seq<Transaction>, c: string)
    ensures CategoryValue(txs, c) == BucketSum(Expenses(txs), Category, Amount, c)
  {
    var inCategory := (t: Transaction) => t.category == c;
    var both := (t: Transaction) => t.category == c && t.kind == Expense;
    assert CategoryValue(txs, c) == SumOf(Filter(txs, both), Amount);
    FilterFilter(txs, IsExpense, inCategory, both);
    BucketSumFilter(Expenses(txs), Category, Amount, c, inCategory);
  }

  /** When no expense is negative, the pie shows all the spending: its
      slices add up to the total expenses. */
  lemma PieSumIsTotalExpenses(txs: seq<Transaction>)
    requires forall i :: 0 <= i < |txs| && txs[i].kind == Expense ==> txs[i].amount >= 0.0
    ensures SumOf(CategoryData(txs), SliceValue) == TotalExpenses(txs)
  {
    var cats := Categories(txs);
    var mk := (c: string) => Slice(c, CategoryValue(txs, c));
    var keep := (s: Slice) => s.value > 0.0;
    var all := MapSeq(cats, mk);
    var value := (c: string) => CategoryValue(txs, c);
    CategoriesSpec(txs);
    forall i | 0 <= i < |all| && !keep(all[i]) ensures SliceValue(all[i]) == 0.0 {
      CategoryValueNonneg(txs, cats[i]);
    }
    SumOfFilterZero(all, keep, SliceValue);
    SumOfMap(cats, mk, SliceValue, value);
    var ex := Expenses(txs);
    FilterElements(txs, IsExpense);
    forall i | 0 <= i < |ex| ensures Category(ex[i]) in cats {
      var j :| 0 <= j < |txs| && txs[j] == ex[i];
      assert txs[j].category == Category(ex[i]);
    }
    forall i | 0 <= i < |cats| ensures value(cats[i]) == BucketSum(ex, Category, Amount, cats[i]) {
      CategoryValueIsBucket(txs, cats[i]);
    }
    BucketsPartition(ex, Category, Amount, cats, value);
  }

  lemma CategoryValueNonneg(txs: seq<Transaction>, c: string)
    requires forall i :: 0 <= i < |txs| && txs[i].kind == Expense ==> txs[i].amount >= 0.0
    ensures CategoryValue(txs, c) >= 0.0
  {
    var picked := Filter(txs, (t: Transaction) => t.category == c && t.kind == Expense);
    FilterElements(txs, (t: Transaction) => t.category == c && t.kind == Expense);
    forall i | 0 <= i < |picked| ensures Amount(picked[i]) >= 0.0 {
      assert picked[i] in txs;
    }
    SumOfNonneg(picked, Amount);
  }

  // ---------------------------------------------------------------------
  // Reports: spending per month

  /** `t.date.slice(0, 7)`: the year-month of an ISO date. */
  function MonthKey(t: Transaction): string
  {
    Prefix(t.date, 7)
  }

  /** What the month `m` bucket of `monthlyData` should hold. */
  function MonthTotal(txs: seq<Transaction>, m: string): real
  {
    BucketSum(Expenses(txs), MonthKey, Amount, m)
  }

  /** The keys of `monthlyData` in first-appearance order. */
  function MonthKeys(txs: seq<Transaction>): seq<string>
  {
    Dedup(MapSeq(Expenses(txs), MonthKey))
  }

  /** The `monthlyData` accumulator after the first `i` expenses: its keys
      in insertion order, and each key's bucket. */
  ghost predicate Accumulated(expenses: seq<Transaction>, i: nat, keys: seq<string>, buckets: map<string, real>)
    requires i <= |expenses|
  {
    AccumulatedOver(expenses[..i], keys, buckets)
  }

  /** The accumulator after reading `prefix`. */
  ghost predicate AccumulatedOver(prefix: seq<Transaction>, keys: seq<string>, buckets: map<string, real>)
  {
    && keys == Dedup(MapSeq(prefix, MonthKey))
    && (forall m :: m in buckets <==> m in keys)
    && (forall m :: m in buckets ==> buckets[m] == BucketSum(prefix, MonthKey, Amount, m))
  }

  /** The `monthlyData` reduce: walks the expenses and adds each amount to
      its month's entry of an accumulator object, creating the entry on
      first sight. The object is returned as its key order and its map. */
  method MonthlyData(txs: seq<Transaction>) returns (keys: seq<string>, buckets: map<string, real>)
    ensures keys == MonthKeys(txs)
    ensures forall m :: m in buckets <==> m in keys
    ensures forall m :: m in buckets ==> buckets[m] == MonthTotal(txs, m)
  {
    var expenses := Expenses(txs);
    keys, buckets := [], map[];
    var i := 0;
    AccumulatedStart(expenses);
    while i < |expenses|
      invariant 0 <= i <= |expenses|
      invariant Accumulated(expenses, i, keys, buckets)
    {
      var t := expenses[i];
      var month := MonthKey(t);
      MonthlyDataStep(expenses, i, keys, buckets);
      if month in buckets {
        buckets := buckets[month := buckets[month] + t.amount];
      } else {
        keys := keys + [month];
        buckets := buckets[month := t.amount];
      }
      i := i + 1;
    }
    AccumulatedEnd(txs, keys, buckets);
  }

  lemma AccumulatedStart(expenses: seq<Transaction>)
    ensures Accumulated(expenses, 0, [], map[])
  {
    assert expenses[..0] == [];
  }

  /** Once every expense is read, the accumulator holds the month keys and
      the month totals. */
  lemma AccumulatedEnd(txs: seq<Transaction>, keys: seq<string>, buckets: map<string, real>)
    requires Accumulated(Expenses(txs), |Expenses(txs)|, keys, buckets)
    ensures keys == MonthKeys(txs)
    ensures forall m :: m in buckets <==> m in keys
    ensures forall m :: m in buckets ==> buckets[m] == MonthTotal(txs, m)
  {
    assert Expenses(txs)[..|Expenses(txs)|] == Expenses(txs);
  }

  /** One step of the `monthlyData` reduce keeps the accumulator right: the
      key order grows by the month when it is new, and only that month's
      bucket grows, by the expense's amount. */
  lemma MonthlyDataStep(expenses: seq<Transaction>, i: nat, keys: seq<string>, buckets: map<string, real>)
    requires i < |expenses|
    requires Accumulated(expenses, i, keys, buckets)
    ensures var t := expenses[i]; var month := MonthKey(t);
      month in buckets ==> Accumulated(expenses, i + 1, keys, buckets[month := buckets[month] + t.amount])
    ensures var t := expenses[i]; var month := MonthKey(t);
      month !in buckets ==> Accumulated(expenses, i + 1, keys + [month], buckets[month := t.amount])
  {
    var t := expenses[i];
    assert expenses[..i + 1] == expenses[..i] + [t];
    if MonthKey(t) in buckets {
      StepSeenMonth(expenses[..i], t, keys, buckets);
    } else {
      StepNewMonth(expenses[..i], t, keys, buckets);
    }
  }

  /** An expense of a month already seen adds its amount to that bucket. */
  lemma StepSeenMonth(prefix: seq<Transaction>, t: Transaction, keys: seq<string>, buckets: map<string, real>)
    requires AccumulatedOver(prefix, keys, buckets) && MonthKey(t) in buckets
    ensures AccumulatedOver(prefix + [t], keys, buckets[MonthKey(t) := buckets[MonthKey(t)] + t.amount])
  {
    MapSeqSnoc(prefix, t, MonthKey);
    DedupSnoc(MapSeq(prefix, MonthKey), MonthKey(t));
    BucketsStep(prefix, t);
  }

  /** An expense of a new month appends the month and opens its bucket with
      the amount. */
  lemma StepNewMonth(prefix: seq<Transaction>, t: Transaction, keys: seq<string>, buckets: map<string, real>)
    requires AccumulatedOver(prefix, keys, buckets) && MonthKey(t) !in buckets
    ensures AccumulatedOver(prefix + [t], keys + [MonthKey(t)], buckets[MonthKey(t) := t.amount])
  {
    MapSeqSnoc(prefix, t, MonthKey);
    DedupSnoc(MapSeq(prefix, MonthKey), MonthKey(t));
    BucketsStep(prefix, t);
    NewMonthEmpty(prefix, keys, MonthKey(t));
  }

  /** Appending an expense grows its month's bucket by its amount and leaves
      every other bucket alone. */
  lemma BucketsStep(prefix: seq<Transaction>, t: Transaction)
    ensures forall m ::
      BucketSum(prefix + [t], MonthKey, Amount, m)
      == BucketSum(prefix, MonthKey, Amount, m) + (if MonthKey(t) == m then t.amount else 0.0)
  {
    forall m
      ensures BucketSum(prefix + [t], MonthKey, Amount, m)
        == BucketSum(prefix, MonthKey, Amount, m) + (if MonthKey(t) == m then t.amount else 0.0)
    {
      BucketSumSnoc(prefix, t, MonthKey, Amount, m);
    }
  }

  /** A month not yet among the keys has an empty bucket so far. */
  lemma NewMonthEmpty(prefix: seq<Transaction>, keys: seq<string>, month: string)
    requires keys == Dedup(MapSeq(prefix, MonthKey)) && month !in keys
    ensures BucketSum(prefix, MonthKey, Amount, month) == 0.0
  {
    var months := MapSeq(prefix, MonthKey);
    DedupElements(months);
    forall j | 0 <= j < |prefix| ensures MonthKey(prefix[j]) != month {
      assert months[j] in keys;
    }
    BucketSumAbsent(prefix, MonthKey, Amount, month);
  }

  /** The monthly buckets lose nothing: together they hold the total
      expenses. */
  lemma MonthlyBucketsSum(txs: seq<Transaction>)
    ensures SumOf(MonthKeys(txs), m => MonthTotal(txs, m)) == TotalExpenses(txs)
  {
    var ex := Expenses(txs);
    var months := MapSeq(ex, MonthKey);
    DedupElements(months);
    forall i | 0 <= i < |ex| ensures MonthKey(ex[i]) in MonthKeys(txs) {
      assert months[i] == MonthKey(ex[i]);
    }
    BucketsPartition(ex, MonthKey, Amount, MonthKeys(txs), m => MonthTotal(txs, m));
  }

  /** `xs.slice(-n)` for n > 0: the last `n` elements, or all of them. */
  function LastN(xs: seq<string>, n: nat): seq<string>
  {
    if |xs| <= n then xs else xs[|xs| - n..]
  }

  /** `Object.keys(monthlyData).sort().slice(-6)`. */
  function ChartLabels(keys: seq<string>): seq<string>
  {
    LastN(Sort(keys), 6)
  }

  /** The chart shows at most six months, in ascending order, each once,
      all of them months that have a bucket, and they are the latest: every
      month left out sorts before every month shown. */
  lemma ChartLabelsSpec(keys: seq<string>)
    requires Distinct(keys)
    ensures var labels := ChartLabels(keys);
      && |labels| == (if |keys| < 6 then |keys| else 6)
      && Sorted(labels) && Distinct(labels)
      && (forall x :: x in labels ==> x in keys)
      && (forall k, x :: k in keys && k !in labels && x in labels ==> LexLeq(k, x) && k != x)
  {
    SortDistinct(keys);
    ChartLabelsFromKeys(keys);
    ChartLabelsLatest(keys);
  }

  /** The labels are a suffix of the sorted keys, so each one is a key. */
  lemma ChartLabelsFromKeys(keys: seq<string>)
    ensures |Sort(keys)| == |keys|
    ensures var labels := ChartLabels(keys);
      && |labels| == (if |keys| < 6 then |keys| else 6)
      && labels == Sort(keys)[|keys| - |labels|..]
      && (forall x :: x in labels ==> x in keys)
  {
    var sorted := Sort(keys);
    assert |sorted| == |keys| by {
      assert |multiset(sorted)| == |multiset(keys)|;
    }
    var labels := ChartLabels(keys);
    forall x | x in labels ensures x in keys {
      assert x in multiset(sorted);
    }
  }

  /** Every key left off the chart sorts strictly before every label. */
  lemma ChartLabelsLatest(keys: seq<string>)
    requires Distinct(keys)
    ensures var labels := ChartLabels(keys);
      forall k, x :: k in keys && k !in labels && x in labels ==> LexLeq(k, x) && k != x
  {
    var labels := ChartLabels(keys);
    forall k, x | k in keys && k !in labels && x in labels
      ensures LexLeq(k, x) && k != x
    {
      LeftOffBefore(keys, k, x);
    }
  }

  lemma LeftOffBefore(keys: seq<string>, k: string, x: string)
    requires Distinct(keys)
    requires k in keys && k !in ChartLabels(keys) && x in ChartLabels(keys)
    ensures LexLeq(k, x) && k != x
  {
    SortDistinct(keys);
    ChartLabelsFromKeys(keys);
    SuffixAfter(Sort(keys), |keys| - |ChartLabels(keys)|, k, x);
  }

  /** The chart's data points: the bucket of each label. */
  function ChartData(labels: seq<string>, buckets: map<string, real>): (data: seq<real>)
    requires forall i :: 0 <= i < |labels| ==> labels[i] in buckets
    ensures |data| == |labels|
    ensures forall i :: 0 <= i < |labels| ==> data[i] == buckets[labels[i]]
  {
    seq(|labels|, i requires 0 <= i < |labels| => buckets[labels[i]])
  }

  /** The line chart of the reports screen, computed as the screen does:
      every data point is the expense total of the month under it. */
  method LineChart(txs: seq<Transaction>) returns (labels: seq<string>, data: seq<real>)
    ensures labels == ChartLabels(MonthKeys(txs))
    ensures |data| == |labels|
    ensures forall i :: 0 <= i < |labels| ==> data[i] == MonthTotal(txs, labels[i])
  {
    var keys, buckets := MonthlyData(txs);
    ChartLabelsFromKeys(keys);
    labels := ChartLabels(keys);
    data := ChartData(labels, buckets);
  }

  // ---------------------------------------------------------------------
  // Input checks of the add and budget screens

  /** The amount and limit check as written, `!text || isNaN(text)`, and the
      `parseFloat(text)` stored when it passes. */
  function NumericInputAsWritten(text: string): Option<Num>
  {
    if text == [] || IsNaN(text) then None else Some(ParseFloat(text))
  }

  /** The check lets a blank amount through, and what gets stored is NaN. */
  lemma BlankAmountAccepted()
    ensures NumericInputAsWritten(" ") == Some(NaN)
  {
    BlankDisagrees(" ");
  }

  /** The check, with blank text rejected as well: the accepted text is a
      number to both `Number` and `parseFloat`, and that number is kept. */
  function NumericInput(text: string): (r: Option<real>)
    ensures r.None? <==> AllWhitespace(text) || IsNaN(text)
    ensures r.Some? ==> Number(text) == Finite(r.value) && ParseFloat(text) == Finite(r.value)
  {
    TrimEmpty(text);
    if Trim(text) == [] || IsNaN(text) then None
    else
      ParseFloatAgrees(text);
      Some(Number(text).value)
  }

  /** The two checks disagree only on blank text, and where both accept they
      keep the same number. */
  lemma NumericInputRefines(text: string)
    ensures NumericInput(text).Some? ==> NumericInputAsWritten(text) == Some(Finite(NumericInput(text).value))
    ensures NumericInputAsWritten(text).Some? && NumericInput(text).None? ==> text != [] && AllWhitespace(text)
  {
  }

  /** `handleSetBudget` as written: on a blank limit it stores NaN. */
  function SetBudgetAsWritten(budgets: map<string, Num>, category: string, limit: string): Option<map<string, Num>>
  {
    if category == [] || limit == [] || IsNaN(limit) then None
    else Some(budgets[category := ParseFloat(limit)])
  }

  lemma BlankLimitAccepted(budgets: map<string, Num>)
    ensures SetBudgetAsWritten(budgets, "Food", " ") == Some(budgets["Food" := NaN])
  {
    BlankDisagrees(" ");
  }

  /** `{ ...budgets, [category]: value }`: the category gets the value and
      every other category keeps its own. */
  function Upsert(budgets: map<string, real>, category: string, value: real): (r: map<string, real>)
    ensures r.Keys == budgets.Keys + {category}
    ensures r[category] == value
    ensures forall k :: k in budgets && k != category ==> r[k] == budgets[k]
  {
    budgets[category := value]
  }

  /** `handleSetBudget`'s new budgets: nothing without a category or with a
      limit that the corrected check refuses; otherwise the category's limit
      is set to the accepted number and every other category keeps its own. */
  function SetBudget(budgets: map<string, real>, category: string, limit: string): (r: Option<map<string, real>>)
    ensures r.None? <==> category == [] || NumericInput(limit).None?
    ensures r.Some? ==> r.value == Upsert(budgets, category, NumericInput(limit).value)
  {
    var n := NumericInput(limit);
    if category == [] || n.None? then None else Some(Upsert(budgets, category, n.value))
  }

  /** The budget screen refuses exactly an empty category and a blank or
      non-numeric limit; otherwise the category holds what `parseFloat`
      reads from the limit and the other categories keep theirs. */
  lemma SetBudgetSpec(budgets: map<string, real>, category: string, limit: string)
    ensures SetBudget(budgets, category, limit).None? <==> category == [] || AllWhitespace(limit) || IsNaN(limit)
    ensures SetBudget(budgets, category, limit).Some? ==>
      && SetBudget(budgets, category, limit).value.Keys == budgets.Keys + {category}
      && Finite(SetBudget(budgets, category, limit).value[category]) == ParseFloat(limit)
      && forall k :: k in budgets && k != category ==> SetBudget(budgets, category, limit).value[k] == budgets[k]
  {
    var r := SetBudget(budgets, category, limit);
    if r.Some? {
      var v := NumericInput(limit).value;
      assert ParseFloat(limit) == Finite(v);
      assert r.value == Upsert(budgets, category, v);
    }
  }

  /** The next theme of `toggleTheme`. */
  function NextTheme(theme: string): (r: string)
    ensures r == "dark" <==> theme == "light"
    ensures r == "light" || r == "dark"
  {
    if theme == "light" then "dark" else "light"
  }

  /** Toggling twice is no change for either real theme. */
  lemma ToggleTwice(theme: string)
    requires theme == "light" || theme == "dark"
    ensures NextTheme(NextTheme(theme)) == theme
  {
  }

  /** The `AppProvider` state (storage loading and saving are not
      modelled). */
  class Ledger {
    var theme: string
    var transactions: seq<Transaction>
    var budgets: map<string, real>
    var user: Profile

    constructor ()
      ensures theme == "light" && transactions == [] && budgets == map[]
      ensures user == Profile("Kinza Ali", "kinza.ali@example.com")
    {
      theme := "light";
      transactions := [];
      budgets := map[];
      user := Profile("Kinza Ali", "kinza.ali@example.com");
    }

    method ToggleTheme()
      modifies this
      ensures theme == NextTheme(old(theme))
      ensures transactions == old(transactions) && budgets == old(budgets) && user == old(user)
    {
      theme := NextTheme(theme);
    }

    /** `addTransaction`: the new transaction goes first. */
    method AddTransaction(t: Transaction)
      modifies this
      ensures transactions == [t] + old(transactions)
      ensures theme == old(theme) && budgets == old(budgets) && user == old(user)
    {
      transactions := [t] + transactions;
    }

    method UpdateBudgets(newBudgets: map<string, real>)
      modifies this
      ensures budgets == newBudgets
      ensures theme == old(theme) && transactions == old(transactions) && user == old(user)
    {
      budgets := newBudgets;
    }

    method UpdateUser(updated: Profile)
      modifies this
      ensures user == updated
      ensures theme == old(theme) && transactions == old(transactions) && budgets == old(budgets)
    {
      user := updated;
    }

    /** `handleAdd` with the corrected amount check `NumericInput` (the
      check as written also lets a blank amount through, see
      `BlankAmountAccepted`): a valid amount becomes a transaction at the
      front of the list (the id `String(Date.now())` and the date are
      inputs); anything else changes nothing. */
    method HandleAdd(amount: string, category: string, date: string, kind: TxType, id: string)
      returns (added: bool)
      modifies this
      ensures added <==> NumericInput(amount).Some?
      ensures added ==>
        transactions == [Transaction(id, NumericInput(amount).value, category, date, kind)] + old(transactions)
      ensures !added ==> transactions == old(transactions)
      ensures theme == old(theme) && budgets == old(budgets) && user == old(user)
    {
      match NumericInput(amount)
      case None =>
        added := false;
      case Some(v) =>
        AddTransaction(Transaction(id, v, category, date, kind));
        added := true;
    }

    /** `handleSetBudget` with the corrected limit check of `SetBudget` (the
      check as written also lets a blank limit through, see
      `BlankLimitAccepted`). */
    method HandleSetBudget(category: string, limit: string) returns (ok: bool)
      modifies this
      ensures ok <==> SetBudget(old(budgets), category, limit).Some?
      ensures ok ==> budgets == SetBudget(old(budgets), category, limit).value
      ensures !ok ==> budgets == old(budgets)
      ensures theme == old(theme) && transactions == old(transactions) && user == old(user)
    {
      match SetBudget(budgets, category, limit)
      case None =>
        ok := false;
      case Some(b) =>
        UpdateBudgets(b);
        ok := true;
    }
  }
}
