/**
 * `GET /api/summary`: income, expenses and balance over the caller's
 * transactions, and the spending per expense category with the empty
 * categories dropped. The two fetches become the full tables plus a failure
 * flag for each query.
 */
module Summary {
  import opened Wrappers
  import opened Query
  import opened Schema
  import opened Db

  datatype Entry = Entry(categoryId: Id, categoryName: string, total: real)

  datatype Summary = Summary(balance: real, totalIncome: real, totalExpenses: real, categoryBreakdown: seq<Entry>)

  function InCategory(cid: Id): Transaction -> bool {
    (t: Transaction) => t.kind == Expense && t.categoryId == cid
  }

  /** The sum of the expense rows filed under category `cid`. */
  function CategoryTotal(rows: seq<Transaction>, cid: Id): (r: real)
    ensures (forall t :: t in rows ==> t.kind != Expense || t.categoryId != cid) ==> r == 0.0
    ensures (forall i :: 0 <= i < |rows| ==> rows[i].amount >= 0.0) ==> r >= 0.0
  {
    var kept := Filter(rows, InCategory(cid));
    FilterMembers(rows, InCategory(cid));
    assert forall i :: 0 <= i < |kept| ==> kept[i] in rows;
    assert kept != [] ==> kept[0] in kept;
    SumAmounts(kept)
  }

  function EntryOf(rows: seq<Transaction>, c: Category): Entry {
    Entry(c.id, c.name, CategoryTotal(rows, c.id))
  }

  /** `categories.map(...)`: one entry per category, in the same order. */
  function Entries(rows: seq<Transaction>, cats: seq<Category>): (r: seq<Entry>)
    ensures |r| == |cats| && forall i :: 0 <= i < |cats| ==> r[i] == EntryOf(rows, cats[i])
  {
    if cats == [] then [] else [EntryOf(rows, cats[0])] + Entries(rows, cats[1..])
  }

  function Positive(e: Entry): bool { e.total > 0.0 }

  /** The user's expense categories, as `.eq('user_id', uid).eq('type', 'expense')` fetches them. */
  function ExpenseOf(uid: Id): Category -> bool {
    (c: Category) => c.userId == uid && c.kind == Expense
  }

  function ExpenseCategories(categories: seq<Category>, uid: Id): (r: seq<Category>)
    ensures forall c :: c in r <==> c in categories && c.userId == uid && c.kind == Expense
  {
    FilterMembers(categories, ExpenseOf(uid));
    Filter(categories, ExpenseOf(uid))
  }

  /** `.map(...).filter((c) => c.total > 0)` over the fetched categories. */
  function Breakdown(rows: seq<Transaction>, cats: seq<Category>): (r: seq<Entry>)
    ensures IsSubsequence(r, Entries(rows, cats))
    ensures forall e :: e in r ==> e.total > 0.0 && exists c :: c in cats && e == EntryOf(rows, c)
    ensures forall c :: c in cats ==> (EntryOf(rows, c) in r <==> CategoryTotal(rows, c.id) > 0.0)
  {
    var all := Entries(rows, cats);
    assert forall c :: c in cats ==> EntryOf(rows, c) in all by {
      forall c | c in cats ensures EntryOf(rows, c) in all {
        var i :| 0 <= i < |cats| && cats[i] == c;
        assert all[i] == EntryOf(rows, c);
      }
    }
    FilterMembers(all, Positive);
    FilterOrder(all, Positive);
    Filter(all, Positive)
  }

  /** `GET /api/summary` for the caller `auth` over the `transactions` and `categories` tables. */
  function GetSummary(auth: Option<Id>, transactions: seq<Transaction>, categories: seq<Category>,
                      transactionsFailed: bool, categoriesFailed: bool): (r: Response<Summary>)
    ensures auth.None? ==> r == Unauthorized()
    ensures auth.Some? && transactionsFailed ==> r == Err(500, "Failed to fetch summary")
    ensures auth.Some? && !transactionsFailed ==> r.Ok? && r.status == 200
    ensures r.Ok? ==> r.data.balance == r.data.totalIncome - r.data.totalExpenses
    ensures r.Ok? ==> var b := CalculateBalance(transactions, auth.value, None).data;
              r.data.totalIncome == b.income && r.data.totalExpenses == b.expenses
    ensures r.Ok? && categoriesFailed ==> r.data.categoryBreakdown == []
    ensures r.Ok? ==> forall e :: e in r.data.categoryBreakdown ==>
              e.total > 0.0
              && (exists c :: c in categories && c.userId == auth.value && c.kind == Expense
                               && e == EntryOf(OfUser(transactions, auth.value), c))
    ensures r.Ok? && !categoriesFailed ==>
              forall c :: c in categories && c.userId == auth.value && c.kind == Expense
                && CategoryTotal(OfUser(transactions, auth.value), c.id) > 0.0
                ==> EntryOf(OfUser(transactions, auth.value), c) in r.data.categoryBreakdown
    ensures r.Ok? && !categoriesFailed ==>
              IsSubsequence(r.data.categoryBreakdown,
                            Entries(OfUser(transactions, auth.value), ExpenseCategories(categories, auth.value)))
  {
    if auth.None? then Unauthorized()
    else if transactionsFailed then Err(500, "Failed to fetch summary")
    else
      var rows := OfUser(transactions, auth.value);
      var income := KindTotal(rows, Income);
      var expenses := KindTotal(rows, Expense);
      var cats := if categoriesFailed then [] else ExpenseCategories(categories, auth.value);
      Ok(200, Summary(income - expenses, income, expenses, Breakdown(rows, cats)))
  }

  /** A row of a type other than income or expense moves neither total. */
  lemma OtherKindsIgnored(uid: Id, transactions: seq<Transaction>, categories: seq<Category>, t: Transaction)
    requires !IsKind(t.kind)
    ensures var before := GetSummary(Some(uid), transactions, categories, false, false).data;
            var after := GetSummary(Some(uid), transactions + [t], categories, false, false).data;
            after.totalIncome == before.totalIncome && after.totalExpenses == before.totalExpenses
            && after.balance == before.balance
  {
    BalanceAfterAppend(transactions, t, uid);
  }

  /** When every row is income or expense, the two totals account for all of the caller's rows. */
  lemma TotalsCoverAllRows(uid: Id, transactions: seq<Transaction>, categories: seq<Category>)
    requires forall t :: t in transactions ==> IsKind(t.kind)
    ensures var s := GetSummary(Some(uid), transactions, categories, false, false).data;
            s.totalIncome + s.totalExpenses == SumAmounts(OfUser(transactions, uid))
  {
    FilterMembers(transactions, OwnedBy(uid));
    KindPartition(OfUser(transactions, uid));
  }

  // ---- the worked example ----

  const CatA := Category(10, 1, "A", Expense)
  const CatB := Category(11, 1, "B", Expense)
  const CatC := Category(12, 1, "C", Expense)
  const CatSalary := Category(13, 1, "Salary", Income)
  const Pay := Transaction(1, 1, 100.0, Income, 13, "pay", "2024-05-01")
  const SpendA1 := Transaction(2, 1, 40.0, Expense, 10, "x", "2024-05-02")
  const SpendA2 := Transaction(3, 1, 10.0, Expense, 10, "y", "2024-05-03")
  const SpendB := Transaction(4, 1, 5.0, Expense, 11, "z", "2024-05-04")

  lemma ExampleRows()
    ensures OfUser([Pay, SpendA1, SpendA2, SpendB], 1) == [Pay, SpendA1, SpendA2, SpendB]
    ensures OfKind([Pay, SpendA1, SpendA2, SpendB], Income) == [Pay]
    ensures OfKind([Pay, SpendA1, SpendA2, SpendB], Expense) == [SpendA1, SpendA2, SpendB]
    ensures Filter([Pay, SpendA1, SpendA2, SpendB], InCategory(10)) == [SpendA1, SpendA2]
    ensures Filter([Pay, SpendA1, SpendA2, SpendB], InCategory(11)) == [SpendB]
    ensures Filter([Pay, SpendA1, SpendA2, SpendB], InCategory(12)) == []
  {
    ExampleFilter(OwnedBy(1));
    ExampleFilter(HasKind(Income));
    ExampleFilter(HasKind(Expense));
    ExampleFilter(InCategory(10));
    ExampleFilter(InCategory(11));
    ExampleFilter(InCategory(12));
  }

  /** Filtering the example rows one row at a time. */
  lemma ExampleFilter(p: Transaction -> bool)
    ensures Filter([Pay, SpendA1, SpendA2, SpendB], p)
              == (if p(Pay) then [Pay] else []) + (if p(SpendA1) then [SpendA1] else [])
                 + (if p(SpendA2) then [SpendA2] else []) + (if p(SpendB) then [SpendB] else [])
  {
    assert [Pay, SpendA1, SpendA2, SpendB] == [Pay] + [SpendA1, SpendA2, SpendB];
    assert [SpendA1, SpendA2, SpendB] == [SpendA1] + [SpendA2, SpendB];
    assert [SpendA2, SpendB] == [SpendA2] + [SpendB];
    assert [SpendB] == [SpendB] + [];
    FilterCons(Pay, [SpendA1, SpendA2, SpendB], p);
    FilterCons(SpendA1, [SpendA2, SpendB], p);
    FilterCons(SpendA2, [SpendB], p);
    FilterCons(SpendB, [], p);
  }

  lemma ExampleSums()
    ensures SumAmounts([Pay]) == 100.0
    ensures SumAmounts([SpendA1, SpendA2, SpendB]) == 55.0
    ensures SumAmounts([SpendA1, SpendA2]) == 50.0
    ensures SumAmounts([SpendB]) == 5.0
  {
    SumCons(Pay, []);
    SumCons(SpendB, []);
    SumCons(SpendA2, [SpendB]);
    SumCons(SpendA1, [SpendA2, SpendB]);
    SumCons(SpendA2, []);
    SumCons(SpendA1, [SpendA2]);
    assert [Pay] + [] == [Pay] && [SpendB] + [] == [SpendB] && [SpendA2] + [] == [SpendA2];
    assert [SpendA2] + [SpendB] == [SpendA2, SpendB];
    assert [SpendA1] + [SpendA2, SpendB] == [SpendA1, SpendA2, SpendB];
    assert [SpendA1] + [SpendA2] == [SpendA1, SpendA2];
  }

  lemma ExampleCategories()
    ensures ExpenseCategories([CatA, CatB, CatC, CatSalary], 1) == [CatA, CatB, CatC]
  {
    var p := ExpenseOf(1);
    assert [CatA, CatB, CatC, CatSalary] == [CatA] + [CatB, CatC, CatSalary];
    assert [CatB, CatC, CatSalary] == [CatB] + [CatC, CatSalary];
    assert [CatC, CatSalary] == [CatC] + [CatSalary];
    assert [CatSalary] == [CatSalary] + [];
    FilterCons(CatA, [CatB, CatC, CatSalary], p);
    FilterCons(CatB, [CatC, CatSalary], p);
    FilterCons(CatC, [CatSalary], p);
    FilterCons(CatSalary, [], p);
  }

  lemma ExampleTotals()
    ensures CategoryTotal([Pay, SpendA1, SpendA2, SpendB], 10) == 50.0
    ensures CategoryTotal([Pay, SpendA1, SpendA2, SpendB], 11) == 5.0
    ensures CategoryTotal([Pay, SpendA1, SpendA2, SpendB], 12) == 0.0
  {
    ExampleRows();
    ExampleSums();
  }

  lemma ExampleBreakdown()
    ensures Breakdown([Pay, SpendA1, SpendA2, SpendB], [CatA, CatB, CatC])
              == [Entry(10, "A", 50.0), Entry(11, "B", 5.0)]
  {
    ExampleTotals();
    var ts := [Pay, SpendA1, SpendA2, SpendB];
    var ea, eb, ec := Entry(10, "A", 50.0), Entry(11, "B", 5.0), Entry(12, "C", 0.0);
    assert [CatA, CatB, CatC][1..] == [CatB, CatC] && [CatB, CatC][1..] == [CatC] && [CatC][1..] == [];
    assert Entries(ts, [CatA, CatB, CatC]) == [ea] + ([eb] + ([ec] + []));
    FilterCons(ea, [eb] + ([ec] + []), Positive);
    FilterCons(eb, [ec] + [], Positive);
    FilterCons(ec, [], Positive);
  }

  /** Income 100 and expenses 40 and 10 in category A and 5 in B: balance 45, breakdown A = 50, B = 5;
      the untouched category C and the income category are left out. */
  lemma WorkedExample()
    ensures GetSummary(Some(1), [Pay, SpendA1, SpendA2, SpendB], [CatA, CatB, CatC, CatSalary], false, false)
              == Ok(200, Summary(45.0, 100.0, 55.0, [Entry(10, "A", 50.0), Entry(11, "B", 5.0)]))
  {
    ExampleRows();
    ExampleSums();
    ExampleCategories();
    ExampleBreakdown();
  }
}
