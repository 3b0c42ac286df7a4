/**
 * `GET /api/budgets` and `POST /api/budgets`. `GET` pairs every budget of the
 * caller with the spending of its category in its month; `POST` makes its own
 * field checks instead of calling `validateBudget`, then updates the limit of the
 * caller's budget for the (category, month) pair or inserts a new one.
 */
module BudgetsRoute {
  import opened Wrappers
  import opened Query
  import opened Schema
  import opened Validation
  import opened Db
  import opened Store

  /** One row of the `GET` reply. */
  datatype BudgetView = BudgetView(
    id: Id, categoryId: Id, categoryName: string, limitAmount: real, month: string, spent: real)

  /** The per-budget query of `GET`, one clause at a time: the caller's rows of the
      budget's category, of type expense, dated from `month-01` to `month-31`. */
  function SpentClauses(uid: Id, cid: Id, month: string): seq<Transaction -> bool> {
    [OwnedBy(uid), InCategoryId(cid), HasKind(Expense), OnOrAfter(month + "-01"), OnOrBefore(month + "-31")]
  }

  /** The route's clauses select exactly the rows `getCategorySpending` counts. */
  lemma SpentClausesSelect(uid: Id, cid: Id, month: string)
    ensures forall t :: AllHold(SpentClauses(uid, cid, month), t) <==> SpendingRow(t, uid, cid, month)
  {
    var q := SpentClauses(uid, cid, month);
    forall t ensures AllHold(q, t) <==> SpendingRow(t, uid, cid, month) {
      assert AllHold(q, t) <==> q[0](t) && q[1](t) && q[2](t) && q[3](t) && q[4](t);
    }
  }

  /** `transactions?.reduce((sum, t) => sum + parseFloat(t.amount), 0)` over that query's rows. */
  function Spent(ts: seq<Transaction>, uid: Id, cid: Id, month: string): (r: real)
    ensures (forall t :: t in ts ==> !SpendingRow(t, uid, cid, month)) ==> r == 0.0
    ensures (forall i :: 0 <= i < |ts| ==> ts[i].amount >= 0.0) ==> r >= 0.0
  {
    var rows := Where(ts, SpentClauses(uid, cid, month));
    SpentClausesSelect(uid, cid, month);
    assert forall t :: t in rows ==> multiset(rows)[t] > 0;
    assert forall i :: 0 <= i < |rows| ==> rows[i] in rows;
    assert rows != [] ==> rows[0] in rows;
    SumAmounts(rows)
  }

  /** The spent figure of `GET` is the total `getCategorySpending` reports for the same budget. */
  lemma SpentIsCategorySpending(ts: seq<Transaction>, uid: Id, cid: Id, month: string)
    ensures GetCategorySpending(ts, uid, cid, month, None) == Success(Spent(ts, uid, cid, month))
  {
    var a := Where(ts, SpentClauses(uid, cid, month));
    var b := Filter(ts, IsSpendingRow(uid, cid, month));
    SpentClausesSelect(uid, cid, month);
    FilterCount(ts, IsSpendingRow(uid, cid, month));
    assert forall t :: multiset(a)[t] == multiset(b)[t];
    assert multiset(a) == multiset(b);
    SumPermutation(a, b);
  }

  /** `budgets.map(...)`: each budget with its category's name and its spending in its month. */
  function Views(cats: seq<Category>, ts: seq<Transaction>, uid: Id, rows: seq<Budget>): (r: seq<BudgetView>)
    ensures |r| == |rows|
    ensures forall i :: 0 <= i < |rows| ==>
              var b, v := rows[i], r[i];
              v.id == b.id && v.categoryId == b.categoryId && v.limitAmount == b.limitAmount && v.month == b.month
              && v.spent == Spending(ts, uid, b.categoryId, b.month)
    ensures forall i :: 0 <= i < |rows| ==>
              r[i].categoryName == UnknownName
              || exists c :: c in cats && c.id == rows[i].categoryId && c.name == r[i].categoryName
    ensures forall i :: 0 <= i < |rows| ==>
              (forall c :: c in cats ==> c.id != rows[i].categoryId) ==> r[i].categoryName == UnknownName
    ensures DistinctKeys(cats, CategoryId) ==>
              forall i, c :: 0 <= i < |rows| && c in cats && c.id == rows[i].categoryId ==>
                r[i].categoryName == ShownName(c)
  {
    if rows == [] then []
    else
      var b := rows[0];
      SpentIsCategorySpending(ts, uid, b.categoryId, b.month);
      [BudgetView(b.id, b.categoryId, JoinedName(cats, b.categoryId), b.limitAmount, b.month,
                  Spent(ts, uid, b.categoryId, b.month))]
      + Views(cats, ts, uid, rows[1..])
  }

  /** `GET`: one entry per budget of the caller, latest month first. */
  method Get(db: Database, auth: Option<Id>, storeFails: bool)
    returns (resp: Response<seq<BudgetView>>, ghost rows: seq<Budget>)
    ensures auth.None? ==> resp == Unauthorized()
    ensures auth.Some? && storeFails ==> resp == Err(500, "Failed to fetch budgets")
    ensures auth.Some? && !storeFails ==> resp == Ok(200, Views(db.categories, db.transactions, auth.value, rows))
    ensures auth.Some? ==> forall b :: multiset(rows)[b] == if b.userId == auth.value then multiset(db.budgets)[b] else 0
    ensures Sorted(rows, MonthKey, true)
  {
    if auth.None? {
      return Unauthorized(), [];
    }
    var selected := SelectBudgets(db.budgets, auth.value, "");
    rows := selected;
    if storeFails {
      return Err(500, "Failed to fetch budgets"), rows;
    }
    return Ok(200, Views(db.categories, db.transactions, auth.value, selected)), rows;
  }

  /** The two field checks of `POST`. `None` is a missing field; a limit of 0 is falsy
      and so counts as missing. */
  function FieldsError(categoryId: Option<Id>, limit: Option<real>, month: string): (r: Option<string>)
    ensures r == Some("Missing required fields") <==>
              categoryId.None? || limit.None? || limit.value == 0.0 || month == ""
    ensures r == Some("Budget limit must be positive") <==>
              categoryId.Some? && limit.Some? && month != "" && limit.value < 0.0
    ensures r.None? <==> categoryId.Some? && limit.Some? && limit.value > 0.0 && month != ""
  {
    if categoryId.None? || limit.None? || limit.value == 0.0 || month == "" then Some("Missing required fields")
    else if limit.value <= 0.0 then Some("Budget limit must be positive")
    else None
  }

  /** Whatever `validateBudget` accepts the handler accepts. */
  lemma FieldsLooserThanValidateBudget(categoryId: Option<Id>, limit: Option<real>, month: string)
    ensures ValidateBudget(categoryId, limit, month).Pass? ==> FieldsError(categoryId, limit, month).None?
  {
    if ValidateBudget(categoryId, limit, month).Pass? {
      assert IsMonthShape(month);
      assert month != "";
    }
  }

  /** The month format is not checked: "2024-1" is accepted, which `validateBudget` rejects. */
  lemma ShortMonthAccepted()
    ensures FieldsError(Some(1), Some(100.0), "2024-1").None?
    ensures ValidateBudget(Some(1), Some(100.0), "2024-1") == Fail(InvalidMonthFormat)
  {
    MonthShapeExamples();
  }

  /** A limit of 0 is reported as a missing field, not as a limit that is not positive. */
  lemma ZeroLimitIsMissing()
    ensures FieldsError(Some(1), Some(0.0), "2024-05") == Some("Missing required fields")
    ensures ValidateBudget(Some(1), Some(0.0), "2024-05") == Fail(BudgetLimitNotPositive)
  {
  }

  // ---- the upsert ----

  function BudgetKeyIs(key: (Id, Id, string)): Budget -> bool {
    (b: Budget) => BudgetKey(b) == key
  }

  /** The `existingBudget` query: `.eq('user_id').eq('category_id').eq('month').single()`. */
  function Existing(budgets: seq<Budget>, uid: Id, cid: Id, month: string): (r: Option<nat>)
    ensures r.Some? ==> r.value < |budgets| && BudgetKey(budgets[r.value]) == (uid, cid, month)
    ensures DistinctKeys(budgets, BudgetKey) ==>
              (r.None? <==> forall j :: 0 <= j < |budgets| ==> BudgetKey(budgets[j]) != (uid, cid, month))
  {
    var p := BudgetKeyIs((uid, cid, month));
    if DistinctKeys(budgets, BudgetKey) then
      KeyedAtMostOne(budgets, BudgetKey, (uid, cid, month), p);
      SingleFindsUnique(budgets, p);
      Single(budgets, p)
    else
      Single(budgets, p)
  }

  /** The row the upsert writes: the existing budget with the new limit, or a new budget. */
  function Saved(budgets: seq<Budget>, uid: Id, cid: Id, limit: real, month: string): Budget {
    match Existing(budgets, uid, cid, month)
    case Some(i) => budgets[i].(limitAmount := limit)
    case None => Budget(FreshId(budgets, BudgetId), uid, cid, limit, month)
  }

  /** The budgets table after the upsert. */
  function Upsert(budgets: seq<Budget>, uid: Id, cid: Id, limit: real, month: string): (r: seq<Budget>)
    ensures |budgets| <= |r| <= |budgets| + 1
    ensures forall j :: 0 <= j < |budgets| && BudgetKey(budgets[j]) != (uid, cid, month) ==> r[j] == budgets[j]
    ensures exists i :: 0 <= i < |r| && BudgetKey(r[i]) == (uid, cid, month) && r[i].limitAmount == limit
  {
    match Existing(budgets, uid, cid, month)
    case Some(i) =>
      var r := budgets[i := Saved(budgets, uid, cid, limit, month)];
      assert BudgetKey(r[i]) == (uid, cid, month) && r[i].limitAmount == limit;
      r
    case None =>
      var r := budgets + [Saved(budgets, uid, cid, limit, month)];
      assert BudgetKey(r[|budgets|]) == (uid, cid, month) && r[|budgets|].limitAmount == limit;
      r
  }

  /** With a budget for the triple, only that row changes, and only in its limit. */
  lemma UpsertUpdates(budgets: seq<Budget>, uid: Id, cid: Id, limit: real, month: string, i: nat)
    requires DistinctKeys(budgets, BudgetKey)
    requires i < |budgets| && BudgetKey(budgets[i]) == (uid, cid, month)
    ensures Upsert(budgets, uid, cid, limit, month) == budgets[i := budgets[i].(limitAmount := limit)]
    ensures Saved(budgets, uid, cid, limit, month) == budgets[i].(limitAmount := limit)
  {
    assert Existing(budgets, uid, cid, month).Some?;
  }

  /** Without one, exactly one row with the four given fields is appended. */
  lemma UpsertInserts(budgets: seq<Budget>, uid: Id, cid: Id, limit: real, month: string)
    requires DistinctKeys(budgets, BudgetKey)
    requires forall j :: 0 <= j < |budgets| ==> BudgetKey(budgets[j]) != (uid, cid, month)
    ensures Upsert(budgets, uid, cid, limit, month)
              == budgets + [Budget(FreshId(budgets, BudgetId), uid, cid, limit, month)]
  {
  }

  /** After the upsert the triple has exactly one row, it carries the new limit, and
      ids and triples stay unique. */
  lemma UpsertOneRowPerTriple(budgets: seq<Budget>, uid: Id, cid: Id, limit: real, month: string)
    requires DistinctKeys(budgets, BudgetKey) && DistinctKeys(budgets, BudgetId)
    ensures var r := Upsert(budgets, uid, cid, limit, month);
            DistinctKeys(r, BudgetKey) && DistinctKeys(r, BudgetId)
            && exists i :: 0 <= i < |r| && BudgetKey(r[i]) == (uid, cid, month) && r[i].limitAmount == limit
  {
    var r := Upsert(budgets, uid, cid, limit, month);
    match Existing(budgets, uid, cid, month)
    case Some(i) =>
      assert forall j :: 0 <= j < |r| ==> BudgetKey(r[j]) == BudgetKey(budgets[j]) && BudgetId(r[j]) == BudgetId(budgets[j]);
      assert BudgetKey(r[i]) == (uid, cid, month) && r[i].limitAmount == limit;
    case None =>
      DistinctKeysAppend(budgets, Saved(budgets, uid, cid, limit, month), BudgetKey);
      DistinctKeysAppend(budgets, Saved(budgets, uid, cid, limit, month), BudgetId);
      assert r[|budgets|] == Saved(budgets, uid, cid, limit, month);
  }

  /** Sending the same budget twice leaves the table as sending it once. */
  lemma UpsertIdempotent(budgets: seq<Budget>, uid: Id, cid: Id, limit: real, month: string)
    requires DistinctKeys(budgets, BudgetKey) && DistinctKeys(budgets, BudgetId)
    ensures var once := Upsert(budgets, uid, cid, limit, month);
            Upsert(once, uid, cid, limit, month) == once
  {
    var once := Upsert(budgets, uid, cid, limit, month);
    UpsertOneRowPerTriple(budgets, uid, cid, limit, month);
    var i :| 0 <= i < |once| && BudgetKey(once[i]) == (uid, cid, month) && once[i].limitAmount == limit;
    UpsertUpdates(once, uid, cid, limit, month, i);
    assert once[i].(limitAmount := limit) == once[i];
  }

  /** `POST`: the field checks, the category checks, then the upsert. Every rejection
      leaves the store as it was. */
  method Post(db: Database, auth: Option<Id>, categoryId: Option<Id>, limit: Option<real>, month: string,
              saveFails: bool)
    returns (resp: Response<Budget>)
    requires db.Valid()
    modifies db
    ensures db.Valid()
    ensures auth.None? ==> resp == Unauthorized() && unchanged(db)
    ensures auth.Some? && FieldsError(categoryId, limit, month).Some? ==>
              resp == Err(400, FieldsError(categoryId, limit, month).value) && unchanged(db)
    ensures auth.Some? && FieldsError(categoryId, limit, month).None? ==>
              var cat := OwnedCategory(old(db.categories), categoryId.value, auth.value);
              && (cat.None? ==> resp == Err(400, "Category not found") && unchanged(db))
              && (cat.Some? && cat.value.kind != Expense ==>
                    resp == Err(400, "Budgets can only be set for expense categories") && unchanged(db))
              && (cat.Some? && cat.value.kind == Expense && saveFails ==>
                    resp == Err(500, "Failed to save budget") && unchanged(db))
              && (cat.Some? && cat.value.kind == Expense && !saveFails ==>
                    && resp == Ok(201, Saved(old(db.budgets), auth.value, categoryId.value, limit.value, month))
                    && db.budgets == Upsert(old(db.budgets), auth.value, categoryId.value, limit.value, month)
                    && db.users == old(db.users) && db.categories == old(db.categories)
                    && db.transactions == old(db.transactions))
  {
    if auth.None? {
      return Unauthorized();
    }
    var error := FieldsError(categoryId, limit, month);
    if error.Some? {
      return Err(400, error.value);
    }
    var cat := OwnedCategory(db.categories, categoryId.value, auth.value);
    if cat.None? {
      return Err(400, "Category not found");
    }
    if cat.value.kind != Expense {
      return Err(400, "Budgets can only be set for expense categories");
    }
    if saveFails {
      return Err(500, "Failed to save budget");
    }
    ghost var before := db.budgets;
    var existing := Existing(db.budgets, auth.value, categoryId.value, month);
    var row;
    if existing.Some? {
      row := db.UpdateBudgetLimit(existing.value, limit.value);
      SetBudgetLimit(db.users, db.categories, db.transactions, before, existing.value, limit.value);
    } else {
      row := db.InsertBudget(auth.value, categoryId.value, limit.value, month);
      assert SetOnExpense(row, db.categories) by {
        assert cat.value in db.categories;
      }
      AddBudget(db.users, db.categories, db.transactions, before, row);
    }
    return Ok(201, row);
  }
}
