/**
 * The data-access helpers: the three readers, which build their query one
 * optional filter at a time, and the two sums, balance and category spending.
 * Each helper reports a store failure as a `Failure` value instead of raising it.
 */
module Db {
  import opened Wrappers
  import opened Text
  import opened Query
  import opened Schema

  /** `{ success: true, data }` or `{ success: false, error }`. */
  datatype DbResult<T> = Success(data: T) | Failure(error: string)

  // ---- sums ----

  /** `rows.reduce((sum, t) => sum + parseFloat(t.amount), 0)`, folding from the left. */
  function SumAmounts(ts: seq<Transaction>): (r: real)
    ensures (forall i :: 0 <= i < |ts| ==> ts[i].amount >= 0.0) ==> r >= 0.0
  {
    if ts == [] then 0.0 else SumAmounts(ts[..|ts| - 1]) + ts[|ts| - 1].amount
  }

  lemma {:induction false} SumAppend(a: seq<Transaction>, b: seq<Transaction>)
    ensures SumAmounts(a + b) == SumAmounts(a) + SumAmounts(b)
    decreases |b|
  {
    if b == [] {
      assert a + b == a;
    } else {
      assert (a + b)[..|a + b| - 1] == a + b[..|b| - 1];
      SumAppend(a, b[..|b| - 1]);
    }
  }

  lemma SumCons(x: Transaction, s: seq<Transaction>)
    ensures SumAmounts([x] + s) == x.amount + SumAmounts(s)
  {
    SumAppend([x], s);
    assert [x][..0] == [];
  }

  /** A sum does not depend on the order in which the store returned the rows. */
  lemma {:induction false} SumPermutation(a: seq<Transaction>, b: seq<Transaction>)
    requires multiset(a) == multiset(b)
    ensures SumAmounts(a) == SumAmounts(b)
    decreases |a|
  {
    if a != [] {
      var x := a[0];
      assert x in multiset(b);
      var k :| 0 <= k < |b| && b[k] == x;
      var rest := b[..k] + b[k + 1..];
      assert b == b[..k] + ([x] + b[k + 1..]);
      assert a == [x] + a[1..];
      assert multiset(a[1..]) == multiset(rest) by {
        assert multiset(a) == multiset{x} + multiset(a[1..]);
        assert multiset(b) == multiset(b[..k]) + multiset{x} + multiset(b[k + 1..]);
        assert multiset(rest) == multiset(b[..k]) + multiset(b[k + 1..]);
        assert multiset(a[1..]) == multiset(a) - multiset{x};
        assert multiset(rest) == multiset(b) - multiset{x};
      }
      SumPermutation(a[1..], rest);
      SumCons(x, a[1..]);
      SumAppend(b[..k], [x] + b[k + 1..]);
      SumCons(x, b[k + 1..]);
      SumAppend(b[..k], b[k + 1..]);
    }
  }

  /** With no negative amounts, summing fewer rows gives no more. */
  lemma {:induction false} SumFilterMonotone(s: seq<Transaction>, p: Transaction -> bool, q: Transaction -> bool)
    requires forall i :: 0 <= i < |s| ==> s[i].amount >= 0.0 && (p(s[i]) ==> q(s[i]))
    ensures SumAmounts(Filter(s, p)) <= SumAmounts(Filter(s, q))
    decreases |s|
  {
    if s != [] {
      SumFilterMonotone(s[1..], p, q);
      SumCons(s[0], Filter(s[1..], p));
      SumCons(s[0], Filter(s[1..], q));
      assert forall i :: 0 <= i < |Filter(s[1..], q)| ==> Filter(s[1..], q)[i].amount >= 0.0 by {
        forall i | 0 <= i < |Filter(s[1..], q)| ensures Filter(s[1..], q)[i].amount >= 0.0 {
          FilterMembers(s[1..], q);
          assert Filter(s[1..], q)[i] in s[1..];
        }
      }
    }
  }

  function OwnedBy(uid: Id): Transaction -> bool {
    (t: Transaction) => t.userId == uid
  }

  function HasKind(kind: string): Transaction -> bool {
    (t: Transaction) => t.kind == kind
  }

  function InCategoryId(cid: Id): Transaction -> bool {
    (t: Transaction) => t.categoryId == cid
  }

  /** `.gte('date', start)`. */
  function OnOrAfter(start: string): Transaction -> bool {
    (t: Transaction) => StrLe(start, t.date)
  }

  /** `.lte('date', end)`. */
  function OnOrBefore(end: string): Transaction -> bool {
    (t: Transaction) => StrLe(t.date, end)
  }

  /** The rows `.eq('user_id', uid)` selects. */
  function OfUser(ts: seq<Transaction>, uid: Id): seq<Transaction> {
    Filter(ts, OwnedBy(uid))
  }

  /** `rows.filter((t) => t.type === kind)`. */
  function OfKind(ts: seq<Transaction>, kind: string): seq<Transaction> {
    Filter(ts, HasKind(kind))
  }

  /** The sum of the amounts of the rows of one type. */
  function KindTotal(ts: seq<Transaction>, kind: string): (r: real)
    ensures (forall i :: 0 <= i < |ts| ==> ts[i].kind != kind) ==> r == 0.0
    ensures (forall i :: 0 <= i < |ts| ==> ts[i].amount >= 0.0) ==> r >= 0.0
  {
    var rows := OfKind(ts, kind);
    FilterMembers(ts, HasKind(kind));
    assert forall i :: 0 <= i < |rows| ==> rows[i] in ts;
    assert rows != [] ==> rows[0] in rows;
    SumAmounts(rows)
  }

  /** Every row is income or expense: then the two totals share out the whole sum. */
  lemma {:induction false} KindPartition(ts: seq<Transaction>)
    requires forall i :: 0 <= i < |ts| ==> IsKind(ts[i].kind)
    ensures KindTotal(ts, Income) + KindTotal(ts, Expense) == SumAmounts(ts)
    decreases |ts|
  {
    if ts != [] {
      KindPartition(ts[1..]);
      assert ts == [ts[0]] + ts[1..];
      SumCons(ts[0], ts[1..]);
      SumCons(ts[0], OfKind(ts[1..], Income));
      SumCons(ts[0], OfKind(ts[1..], Expense));
    }
  }

  lemma AppendOfKind(ts: seq<Transaction>, t: Transaction, kind: string)
    ensures KindTotal(ts + [t], kind) == KindTotal(ts, kind) + (if t.kind == kind then t.amount else 0.0)
  {
    FilterAppend(ts, [t], HasKind(kind));
    SumAppend(OfKind(ts, kind), OfKind([t], kind));
    assert [t][1..] == [];
    SumCons(t, []);
  }

  datatype Balance = Balance(income: real, expenses: real, balance: real)

  /** `calculateBalance(userId)` over the rows `transactions` holds. */
  function CalculateBalance(transactions: seq<Transaction>, uid: Id, storeError: Option<string>): (r: DbResult<Balance>)
    ensures r.Failure? <==> storeError.Some?
    ensures r.Failure? ==> r.error == storeError.value
    ensures r.Success? ==> r.data.balance == r.data.income - r.data.expenses
    ensures r.Success? && (forall i :: 0 <= i < |transactions| ==> transactions[i].amount >= 0.0)
            ==> r.data.income >= 0.0 && r.data.expenses >= 0.0
  {
    if storeError.Some? then Failure(storeError.value)
    else
      var rows := OfUser(transactions, uid);
      var income := KindTotal(rows, Income);
      var expenses := KindTotal(rows, Expense);
      FilterMembers(transactions, OwnedBy(uid));
      FilterMembers(rows, HasKind(Income));
      FilterMembers(rows, HasKind(Expense));
      assert forall i :: 0 <= i < |OfKind(rows, Income)| ==> OfKind(rows, Income)[i] in transactions;
      assert forall i :: 0 <= i < |OfKind(rows, Expense)| ==> OfKind(rows, Expense)[i] in transactions;
      Success(Balance(income, expenses, income - expenses))
  }

  /** What one more row does to the balance: an own income row raises income and
      balance by its amount, an own expense row raises expenses and lowers the
      balance, and any other row (another user's, or of another type) changes nothing. */
  lemma BalanceAfterAppend(ts: seq<Transaction>, t: Transaction, uid: Id)
    ensures var before := CalculateBalance(ts, uid, None).data;
            var after := CalculateBalance(ts + [t], uid, None).data;
            if t.userId == uid && t.kind == Income then
              after == Balance(before.income + t.amount, before.expenses, before.balance + t.amount)
            else if t.userId == uid && t.kind == Expense then
              after == Balance(before.income, before.expenses + t.amount, before.balance - t.amount)
            else after == before
  {
    FilterAppend(ts, [t], OwnedBy(uid));
    assert [t][1..] == [];
    var u := OfUser(ts, uid);
    if t.userId == uid {
      assert OfUser([t], uid) == [t];
      assert OfUser(ts + [t], uid) == u + [t];
      AppendOfKind(u, t, Income);
      AppendOfKind(u, t, Expense);
    } else {
      assert OfUser([t], uid) == [];
      assert OfUser(ts + [t], uid) == u + [];
      assert u + [] == u;
    }
  }

  // ---- category spending ----

  /** ``gte('date', `${month}-01`).lte('date', `${month}-31`)``. */
  predicate InMonthRange(date: string, month: string) {
    StrLe(month + "-01", date) && StrLe(date, month + "-31")
  }

  /** A row counted as spending of category `cid` in `month`. */
  predicate SpendingRow(t: Transaction, uid: Id, cid: Id, month: string) {
    t.userId == uid && t.categoryId == cid && t.kind == Expense && InMonthRange(t.date, month)
  }

  function IsSpendingRow(uid: Id, cid: Id, month: string): Transaction -> bool {
    (t: Transaction) => SpendingRow(t, uid, cid, month)
  }

  /** The sum of the spending rows. */
  function Spending(ts: seq<Transaction>, uid: Id, cid: Id, month: string): (r: real)
    ensures (forall t :: t in ts ==> !SpendingRow(t, uid, cid, month)) ==> r == 0.0
    ensures (forall i :: 0 <= i < |ts| ==> ts[i].amount >= 0.0) ==> r >= 0.0
  {
    var rows := Filter(ts, IsSpendingRow(uid, cid, month));
    FilterMembers(ts, IsSpendingRow(uid, cid, month));
    assert forall i :: 0 <= i < |rows| ==> rows[i] in ts;
    assert rows != [] ==> rows[0] in rows;
    SumAmounts(rows)
  }

  /** `getCategorySpending(userId, categoryId, month)`. */
  function GetCategorySpending(transactions: seq<Transaction>, uid: Id, cid: Id, month: string,
                               storeError: Option<string>): (r: DbResult<real>)
    ensures r.Failure? <==> storeError.Some?
    ensures r.Failure? ==> r.error == storeError.value
    ensures r.Success? && (forall t :: t in transactions ==> !SpendingRow(t, uid, cid, month)) ==> r.data == 0.0
    ensures r.Success? && (forall i :: 0 <= i < |transactions| ==> transactions[i].amount >= 0.0) ==> r.data >= 0.0
  {
    if storeError.Some? then Failure(storeError.value)
    else Success(Spending(transactions, uid, cid, month))
  }

  /** For a date `YYYY-MM-DD` and a month `YYYY-MM`, the string range `month-01`..`month-31`
      holds exactly the dates of that month whose day lies between "01" and "31". */
  lemma MonthRangeExact(date: string, month: string)
    requires |month| == 7 && |date| >= 8 && date[7] == '-'
    ensures InMonthRange(date, month) <==> date[..7] == month && StrLe("01", date[8..]) && StrLe(date[8..], "31")
  {
    var lo, hi := month + "-01", month + "-31";
    if date[..7] == month {
      assert date == month + ("-" + date[8..]);
      assert lo == month + ("-" + "01") && hi == month + ("-" + "31");
      StrLeCommonPrefix(month, "-" + "01", "-" + date[8..]);
      StrLeCommonPrefix(month, "-" + date[8..], "-" + "31");
      StrLeCommonPrefix("-", "01", date[8..]);
      StrLeCommonPrefix("-", date[8..], "31");
    } else {
      var i := FirstDifference(month, date[..7]);
      assert lo[..i + 1] == hi[..i + 1] && lo[..i] == date[..i];
      StrLeDivergesInPrefix(lo, hi, date, i);
      if InMonthRange(date, month) {
        StrLeAntisymmetric(date, hi);
      }
    }
  }

  /** The first index where two different strings of one length differ. */
  lemma FirstDifference(a: string, b: string) returns (i: nat)
    requires |a| == |b| && a != b
    ensures i < |a| && a[i] != b[i] && a[..i] == b[..i]
  {
    i := 0;
    while a[i] == b[i]
      invariant i < |a| && a[..i] == b[..i]
      invariant a[i..] != b[i..]
      decreases |a| - i
    {
      assert a[i..] == [a[i]] + a[i + 1..] && b[i..] == [b[i]] + b[i + 1..];
      assert a[..i + 1] == a[..i] + [a[i]] && b[..i + 1] == b[..i] + [b[i]];
      i := i + 1;
    }
  }

  /** With no negative amounts, a category's spending in a month is at most the user's expense total. */
  lemma {:induction false} SpendingAtMostExpenses(ts: seq<Transaction>, uid: Id, cid: Id, month: string)
    requires forall i :: 0 <= i < |ts| ==> ts[i].amount >= 0.0
    ensures Spending(ts, uid, cid, month) <= KindTotal(OfUser(ts, uid), Expense)
    decreases |ts|
  {
    if ts != [] {
      var x, rest := ts[0], ts[1..];
      SpendingAtMostExpenses(rest, uid, cid, month);
      var sp := Filter(rest, IsSpendingRow(uid, cid, month));
      var ex := OfKind(OfUser(rest, uid), Expense);
      assert forall i :: 0 <= i < |ex| ==> ex[i].amount >= 0.0 by {
        forall i | 0 <= i < |ex| ensures ex[i].amount >= 0.0 {
          FilterMembers(rest, OwnedBy(uid));
          FilterMembers(OfUser(rest, uid), HasKind(Expense));
          assert ex[i] in OfUser(rest, uid);
          assert ex[i] in rest;
        }
      }
      SumCons(x, sp);
      SumCons(x, ex);
      if x.userId == uid {
        assert OfUser(ts, uid) == [x] + OfUser(rest, uid);
        assert ([x] + OfUser(rest, uid))[1..] == OfUser(rest, uid);
      }
    }
  }

  /** One more row adds its amount to the spending exactly when it is a spending row. */
  lemma SpendingAfterAppend(ts: seq<Transaction>, t: Transaction, uid: Id, cid: Id, month: string)
    ensures Spending(ts + [t], uid, cid, month)
            == Spending(ts, uid, cid, month) + (if SpendingRow(t, uid, cid, month) then t.amount else 0.0)
  {
    var p := IsSpendingRow(uid, cid, month);
    FilterAppend(ts, [t], p);
    SumAppend(Filter(ts, p), Filter([t], p));
    assert [t][1..] == [];
    SumCons(t, []);
  }

  // ---- readers ----

  /** The optional filters of `getUserTransactions`; "" or `None` leaves a filter out. */
  datatype TransactionFilters = TransactionFilters(
    kind: string, categoryId: Option<Id>, startDate: string, endDate: string)

  /** The rows the transaction query keeps: the user's own, then each filter that is present. */
  predicate MatchesFilters(t: Transaction, uid: Id, f: TransactionFilters) {
    && t.userId == uid
    && (f.kind == "" || t.kind == f.kind)
    && (f.categoryId.None? || t.categoryId == f.categoryId.value)
    && (f.startDate == "" || StrLe(f.startDate, t.date))
    && (f.endDate == "" || StrLe(t.date, f.endDate))
  }

  /** The transaction query, one `.eq`/`.gte`/`.lte` clause at a time. */
  method TransactionQuery(uid: Id, f: TransactionFilters) returns (q: seq<Transaction -> bool>)
    ensures forall t :: AllHold(q, t) <==> MatchesFilters(t, uid, f)
  {
    AllHoldOne(OwnedBy(uid));
    q := [OwnedBy(uid)];
    if f.kind != "" {
      AllHoldSnoc(q, HasKind(f.kind));
      q := q + [HasKind(f.kind)];
    }
    if f.categoryId.Some? {
      AllHoldSnoc(q, InCategoryId(f.categoryId.value));
      q := q + [InCategoryId(f.categoryId.value)];
    }
    if f.startDate != "" {
      AllHoldSnoc(q, OnOrAfter(f.startDate));
      q := q + [OnOrAfter(f.startDate)];
    }
    if f.endDate != "" {
      AllHoldSnoc(q, OnOrBefore(f.endDate));
      q := q + [OnOrBefore(f.endDate)];
    }
  }

  function DateKey(t: Transaction): seq<string> { [t.date] }

  /** The rows of the transaction query, newest date first. */
  method SelectTransactions(table: seq<Transaction>, uid: Id, f: TransactionFilters) returns (rows: seq<Transaction>)
    ensures forall t :: multiset(rows)[t] == if MatchesFilters(t, uid, f) then multiset(table)[t] else 0
    ensures Sorted(rows, DateKey, true)
  {
    var q := TransactionQuery(uid, f);
    rows := SortBy(Where(table, q), DateKey, true);
  }

  /** `getUserTransactions(userId, filters)`. */
  method GetUserTransactions(table: seq<Transaction>, uid: Id, f: TransactionFilters, storeError: Option<string>)
    returns (r: DbResult<seq<Transaction>>)
    ensures r.Failure? <==> storeError.Some?
    ensures r.Failure? ==> r.error == storeError.value
    ensures r.Success? ==> forall t :: multiset(r.data)[t] == if MatchesFilters(t, uid, f) then multiset(table)[t] else 0
    ensures r.Success? ==> Sorted(r.data, DateKey, true)
  {
    var rows := SelectTransactions(table, uid, f);
    if storeError.Some? {
      return Failure(storeError.value);
    }
    return Success(rows);
  }

  function CategoryOwnedBy(uid: Id): Category -> bool {
    (c: Category) => c.userId == uid
  }

  function CategoryOfKind(kind: string): Category -> bool {
    (c: Category) => c.kind == kind
  }

  /** The query of `getUserCategories`: the user's categories, of type `kind` when one is given. */
  method CategoryQuery(uid: Id, kind: string) returns (q: seq<Category -> bool>)
    ensures forall c :: AllHold(q, c) <==> c.userId == uid && (kind == "" || c.kind == kind)
  {
    AllHoldOne(CategoryOwnedBy(uid));
    q := [CategoryOwnedBy(uid)];
    if kind != "" {
      AllHoldSnoc(q, CategoryOfKind(kind));
      q := q + [CategoryOfKind(kind)];
    }
  }

  function NameKey(c: Category): seq<string> { [c.name] }

  /** `getUserCategories(userId, type)`: ordered by name ascending. */
  method GetUserCategories(table: seq<Category>, uid: Id, kind: string, storeError: Option<string>)
    returns (r: DbResult<seq<Category>>)
    ensures r.Failure? <==> storeError.Some?
    ensures r.Failure? ==> r.error == storeError.value
    ensures r.Success? ==>
              forall c :: multiset(r.data)[c] == if c.userId == uid && (kind == "" || c.kind == kind) then multiset(table)[c] else 0
    ensures r.Success? ==> Sorted(r.data, NameKey, false)
  {
    var q := CategoryQuery(uid, kind);
    if storeError.Some? {
      return Failure(storeError.value);
    }
    return Success(SortBy(Where(table, q), NameKey, false));
  }

  function BudgetOwnedBy(uid: Id): Budget -> bool {
    (b: Budget) => b.userId == uid
  }

  function BudgetOfMonth(month: string): Budget -> bool {
    (b: Budget) => b.month == month
  }

  /** The budget query: the user's budgets, of one month when a month is given. */
  method BudgetQuery(uid: Id, month: string) returns (q: seq<Budget -> bool>)
    ensures forall b :: AllHold(q, b) <==> b.userId == uid && (month == "" || b.month == month)
  {
    AllHoldOne(BudgetOwnedBy(uid));
    q := [BudgetOwnedBy(uid)];
    if month != "" {
      AllHoldSnoc(q, BudgetOfMonth(month));
      q := q + [BudgetOfMonth(month)];
    }
  }

  function MonthKey(b: Budget): seq<string> { [b.month] }

  /** The rows of the budget query, latest month first. */
  method SelectBudgets(table: seq<Budget>, uid: Id, month: string) returns (rows: seq<Budget>)
    ensures forall b :: multiset(rows)[b] == if b.userId == uid && (month == "" || b.month == month) then multiset(table)[b] else 0
    ensures Sorted(rows, MonthKey, true)
  {
    var q := BudgetQuery(uid, month);
    rows := SortBy(Where(table, q), MonthKey, true);
  }

  /** `getUserBudgets(userId, month)`. */
  method GetUserBudgets(table: seq<Budget>, uid: Id, month: string, storeError: Option<string>)
    returns (r: DbResult<seq<Budget>>)
    ensures r.Failure? <==> storeError.Some?
    ensures r.Failure? ==> r.error == storeError.value
    ensures r.Success? ==>
              forall b :: multiset(r.data)[b] == if b.userId == uid && (month == "" || b.month == month) then multiset(table)[b] else 0
    ensures r.Success? ==> Sorted(r.data, MonthKey, true)
  {
    var rows := SelectBudgets(table, uid, month);
    if storeError.Some? {
      return Failure(storeError.value);
    }
    return Success(rows);
  }
}
