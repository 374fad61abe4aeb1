/** The summary handler `dashboard.getSummary`: income and expense totals,
    the balance, and the expense breakdown per category for the pie chart. */
module Dashboard {
  import opened Types

  /** The label of a slice whose category is unknown or has an empty name. */
  const Uncategorized: string := "ไม่ระบุหมวดหมู่"
  const MsgDashboardFailed: string := "Failed to fetch dashboard data"

  /** The route's query: only the two optional date strings. */
  datatype DashQuery = DashQuery(startDate: Option<string>, endDate: Option<string>)

  /** Parsing the start date, and parsing the end date moved to 23:59:59.999 local
      time; the conversions themselves are parameters. */
  datatype Clock = Clock(parse: string -> Instant, endOfLocalDay: string -> Instant)

  datatype DateRange = DateRange(gte: Instant, lte: Instant)

  /** A row of the grouping by type: the type and its summed amount (null when
      the store has nothing to sum). */
  datatype TypeSum = TypeSum(txType: TxType, sum: Option<real>)

  /** A row of the grouping by category: the category id (null for rows without
      one) and its summed amount. */
  datatype CategorySum = CategorySum(categoryId: Option<int>, sum: Option<real>)

  /** A row of the category lookup. */
  datatype CategoryName = CategoryName(id: int, name: string)

  /** The arguments of a grouping query: the `where` record (user, type, date
      range) and whether the groups are asked for in descending order of sum. */
  datatype GroupWhere = GroupWhere(userId: int, txType: Option<TxType>, date: Option<DateRange>, bySumDescending: bool)

  /** The three store calls the handler makes, as functions of their arguments:
      the grouping by type, the grouping of expenses by category (sorted by sum,
      descending), and the name lookup of a list of ids. */
  datatype Store = Store(
    totalsByType: GroupWhere -> Reply<seq<TypeSum>>,
    expensesByCategory: GroupWhere -> Reply<seq<CategorySum>>,
    namesOf: seq<int> -> Reply<seq<CategoryName>>)

  datatype Summary = Summary(totalIncome: real, totalExpense: real, balance: real)
  datatype Slice = Slice(category: string, total: real)
  datatype DashboardData = DashboardData(summary: Summary, pieChartData: seq<Slice>)

  // ---------------------------------------------------------------------------
  // Query arguments
  // ---------------------------------------------------------------------------

  /** The date filter: present only when both dates are given and non-empty. */
  function DateFilter(query: DashQuery, clock: Clock): (r: Option<DateRange>)
    ensures r.Some? <==> Truthy(query.startDate) && Truthy(query.endDate)
    ensures r.Some? ==> r.value == DateRange(clock.parse(query.startDate.value), clock.endOfLocalDay(query.endDate.value))
  {
    if Truthy(query.startDate) && Truthy(query.endDate) then
      Some(DateRange(clock.parse(query.startDate.value), clock.endOfLocalDay(query.endDate.value)))
    else None
  }

  function TotalsWhere(userId: int, date: Option<DateRange>): GroupWhere
  {
    GroupWhere(userId, None, date, false)
  }

  function ExpensesWhere(userId: int, date: Option<DateRange>): GroupWhere
  {
    GroupWhere(userId, Some(Expense), date, true)
  }

  // ---------------------------------------------------------------------------
  // Assembly
  // ---------------------------------------------------------------------------

  /** A summed amount as the handler reads it: a null sum counts as 0, and a
      present sum, zero included, is taken as it is. */
  function SumOrZero(sum: Option<real>): (r: real)
    ensures sum.None? ==> r == 0.0
    ensures sum.Some? ==> r == sum.value
  {
    if sum.Some? then sum.value else 0.0
  }

  /** The total of one type (controller/dashboradcontroller.ts:47-49): the sum
      of the first group of that type, or 0 when there is none or its sum is null. */
  function TotalOf(totals: seq<TypeSum>, t: TxType): (r: real)
    ensures (forall i :: 0 <= i < |totals| ==> totals[i].txType != t) ==> r == 0.0
    ensures forall i :: (0 <= i < |totals| && totals[i].txType == t
                         && forall j :: 0 <= j < i ==> totals[j].txType != t)
                        ==> r == SumOrZero(totals[i].sum)
    decreases |totals|
  {
    if totals == [] then 0.0
    else if totals[0].txType == t then SumOrZero(totals[0].sum)
    else
      var r := TotalOf(totals[1..], t);
      assert forall i :: 1 <= i < |totals| ==> totals[1..][i - 1] == totals[i];
      r
  }

  /** The non-null category ids of the groups, in group order. */
  function CategoryIds(groups: seq<CategorySum>): (r: seq<int>)
    ensures |r| <= |groups|
    ensures forall x :: x in r <==> exists i :: 0 <= i < |groups| && groups[i].categoryId == Some(x)
    decreases |groups|
  {
    if groups == [] then []
    else
      var rest := CategoryIds(groups[1..]);
      assert forall i :: 1 <= i < |groups| ==> groups[1..][i - 1] == groups[i];
      (if groups[0].categoryId.Some? then [groups[0].categoryId.value] else []) + rest
  }

  /** The label of a slice (controller/dashboradcontroller.ts:92-98): the name of
      the first looked-up category with the group's id, or the uncategorised
      label when there is none or its name is empty. */
  function NameFor(categories: seq<CategoryName>, id: Option<int>): (r: string)
    ensures r != ""
    ensures (forall i :: 0 <= i < |categories| ==> id != Some(categories[i].id)) ==> r == Uncategorized
    ensures forall i :: (0 <= i < |categories| && id == Some(categories[i].id)
                         && forall j :: 0 <= j < i ==> id != Some(categories[j].id))
                        ==> r == (if categories[i].name != "" then categories[i].name else Uncategorized)
    decreases |categories|
  {
    if categories == [] then Uncategorized
    else if id == Some(categories[0].id) then
      (if categories[0].name != "" then categories[0].name else Uncategorized)
    else
      var r := NameFor(categories[1..], id);
      assert forall i :: 1 <= i < |categories| ==> categories[1..][i - 1] == categories[i];
      r
  }

  /** One slice per expense group, in group order, named after its category. */
  function PieChart(groups: seq<CategorySum>, categories: seq<CategoryName>): (r: seq<Slice>)
    ensures |r| == |groups|
    ensures forall i :: 0 <= i < |groups| ==>
      r[i].category == NameFor(categories, groups[i].categoryId) && r[i].total == SumOrZero(groups[i].sum)
    decreases |groups|
  {
    if groups == [] then []
    else
      var head := Slice(NameFor(categories, groups[0].categoryId), SumOrZero(groups[0].sum));
      var rest := PieChart(groups[1..], categories);
      assert forall i :: 1 <= i < |groups| ==> groups[1..][i - 1] == groups[i];
      [head] + rest
  }

  /** `getSummary`: a missing user throws before any query; for a signed-in
      user the answer is the generic error exactly when one of the three store
      calls fails, so a partial answer is never returned. */
  function GetSummary(user: Option<Profile>, query: DashQuery, clock: Clock, store: Store): (r: Outcome<DashboardData>)
    ensures SignedInId(user).None? ==> r == Thrown(AuthenticationError(MsgUnauthorized))
    ensures r.Thrown? && SignedInId(user).Some? ==> r.error == PlainError(MsgDashboardFailed)
    ensures r.Done? ==> r.value.summary.balance == r.value.summary.totalIncome - r.value.summary.totalExpense
    ensures SignedInId(user).Some? ==>
      var date := DateFilter(query, clock);
      var totals := store.totalsByType(TotalsWhere(SignedInId(user).value, date));
      var groups := store.expensesByCategory(ExpensesWhere(SignedInId(user).value, date));
      (r.Thrown? <==>
         totals.StoreFailure? || groups.StoreFailure? || store.namesOf(CategoryIds(groups.rows)).StoreFailure?)
  {
    var userId := SignedInId(user);
    if userId.None? then Thrown(AuthenticationError(MsgUnauthorized))
    else
      var date := DateFilter(query, clock);
      var totals := store.totalsByType(TotalsWhere(userId.value, date));
      if totals.StoreFailure? then Thrown(PlainError(MsgDashboardFailed))
      else
        var income := TotalOf(totals.rows, Income);
        var expense := TotalOf(totals.rows, Expense);
        var balance := income - expense;
        var groups := store.expensesByCategory(ExpensesWhere(userId.value, date));
        if groups.StoreFailure? then Thrown(PlainError(MsgDashboardFailed))
        else
          var names := store.namesOf(CategoryIds(groups.rows));
          if names.StoreFailure? then Thrown(PlainError(MsgDashboardFailed))
          else
            Done(DashboardData(Summary(income, expense, balance), PieChart(groups.rows, names.rows)))
  }

  // ---------------------------------------------------------------------------
  // Properties
  // ---------------------------------------------------------------------------

  /** When every store call answers, the summary holds the two totals and the
      pie chart has one slice per expense group, in order; the names are looked
      up for exactly the non-null ids of those groups. */
  lemma GetSummaryAssembles(user: Option<Profile>, query: DashQuery, clock: Clock, store: Store)
    requires SignedInId(user).Some?
    requires var date := DateFilter(query, clock);
      && store.totalsByType(TotalsWhere(SignedInId(user).value, date)).Rows?
      && store.expensesByCategory(ExpensesWhere(SignedInId(user).value, date)).Rows?
      && store.namesOf(CategoryIds(store.expensesByCategory(ExpensesWhere(SignedInId(user).value, date)).rows)).Rows?
    ensures var date := DateFilter(query, clock);
      var totals := store.totalsByType(TotalsWhere(SignedInId(user).value, date)).rows;
      var groups := store.expensesByCategory(ExpensesWhere(SignedInId(user).value, date)).rows;
      var names := store.namesOf(CategoryIds(groups)).rows;
      var r := GetSummary(user, query, clock, store);
      && r.Done?
      && r.value.summary.totalIncome == TotalOf(totals, Income)
      && r.value.summary.totalExpense == TotalOf(totals, Expense)
      && |r.value.pieChartData| == |groups|
      && (forall i :: 0 <= i < |groups| ==>
            r.value.pieChartData[i] == Slice(NameFor(names, groups[i].categoryId), SumOrZero(groups[i].sum)))
  {
    var date := DateFilter(query, clock);
    var groups := store.expensesByCategory(ExpensesWhere(SignedInId(user).value, date)).rows;
    var names := store.namesOf(CategoryIds(groups)).rows;
    var pie := PieChart(groups, names);
    forall i | 0 <= i < |groups|
      ensures pie[i] == Slice(NameFor(names, groups[i].categoryId), SumOrZero(groups[i].sum))
    {
    }
  }

  /** Both grouping queries use the same user and the same date filter; the
      breakdown alone is restricted to expenses and asked for in descending
      order of sum. The answer depends on the store
      only through those two queries and the name lookup. */
  lemma QueriesShareFilter(user: Option<Profile>, query: DashQuery, clock: Clock, s1: Store, s2: Store)
    requires SignedInId(user).Some?
    requires var w1 := TotalsWhere(SignedInId(user).value, DateFilter(query, clock));
      var w2 := ExpensesWhere(SignedInId(user).value, DateFilter(query, clock));
      && s1.totalsByType(w1) == s2.totalsByType(w1)
      && s1.expensesByCategory(w2) == s2.expensesByCategory(w2)
      && s1.namesOf == s2.namesOf
    ensures var w1 := TotalsWhere(SignedInId(user).value, DateFilter(query, clock));
      var w2 := ExpensesWhere(SignedInId(user).value, DateFilter(query, clock));
      && w1.date == w2.date && w1.userId == w2.userId
      && w1.txType == None && w2.txType == Some(Expense)
      && !w1.bySumDescending && w2.bySumDescending
    ensures GetSummary(user, query, clock, s1) == GetSummary(user, query, clock, s2)
  {
  }

  /** Expense groups as the store returns them: every sum present and sorted
      descending. */
  predicate SortedDescending(groups: seq<CategorySum>)
  {
    forall i, j :: 0 <= i < j < |groups| ==>
      groups[i].sum.Some? && groups[j].sum.Some? && groups[i].sum.value >= groups[j].sum.value
  }

  /** The pie chart inherits the breakdown's order: its totals never increase. */
  lemma PieChartNonIncreasing(groups: seq<CategorySum>, categories: seq<CategoryName>)
    requires SortedDescending(groups)
    ensures var pie := PieChart(groups, categories);
      forall i, j :: 0 <= i < j < |pie| ==> pie[i].total >= pie[j].total
  {
    var pie := PieChart(groups, categories);
    forall i, j | 0 <= i < j < |pie| ensures pie[i].total >= pie[j].total {
      assert pie[i].total == SumOrZero(groups[i].sum);
      assert pie[j].total == SumOrZero(groups[j].sum);
    }
  }

  /** The ids of a concatenation are the ids of its parts, in order. */
  lemma {:induction false} CategoryIdsAppend(a: seq<CategorySum>, b: seq<CategorySum>)
    ensures CategoryIds(a + b) == CategoryIds(a) + CategoryIds(b)
    decreases |a|
  {
    if a == [] {
      assert a + b == b;
    } else {
      var h := if a[0].categoryId.Some? then [a[0].categoryId.value] else [];
      assert (a + b)[0] == a[0];
      assert (a + b)[1..] == a[1..] + b;
      assert CategoryIds(a + b) == h + CategoryIds(a[1..] + b);
      assert CategoryIds(a) == h + CategoryIds(a[1..]);
      CategoryIdsAppend(a[1..], b);
      assert h + (CategoryIds(a[1..]) + CategoryIds(b)) == (h + CategoryIds(a[1..])) + CategoryIds(b);
    }
  }

  /** A worked example: 100 income and one 50 expense in "Food". */
  lemma FoodExample(user: Option<Profile>, query: DashQuery, clock: Clock, store: Store, food: int)
    requires SignedInId(user).Some?
    requires var date := DateFilter(query, clock);
      && store.totalsByType(TotalsWhere(SignedInId(user).value, date))
           == Rows([TypeSum(Income, Some(100.0)), TypeSum(Expense, Some(50.0))])
      && store.expensesByCategory(ExpensesWhere(SignedInId(user).value, date)) == Rows([CategorySum(Some(food), Some(50.0))])
      && store.namesOf([food]) == Rows([CategoryName(food, "Food")])
    ensures GetSummary(user, query, clock, store)
      == Done(DashboardData(Summary(100.0, 50.0, 50.0), [Slice("Food", 50.0)]))
  {
    var totals := [TypeSum(Income, Some(100.0)), TypeSum(Expense, Some(50.0))];
    assert TotalOf(totals, Income) == 100.0;
    assert TotalOf(totals, Expense) == 50.0;
    var groups := [CategorySum(Some(food), Some(50.0))];
    assert CategoryIds(groups) == [food];
    assert NameFor([CategoryName(food, "Food")], Some(food)) == "Food";
    var pie := PieChart(groups, [CategoryName(food, "Food")]);
    assert pie == [Slice("Food", 50.0)];
  }
}
