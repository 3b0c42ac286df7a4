/**
 * `GET /api/transactions` and `POST /api/transactions`. The caller is the user
 * id of a verified token, or `None`; the store's failures are flags.
 */
module TransactionsRoute {
  import opened Wrappers
  import opened Text
  import opened Query
  import opened Schema
  import opened Validation
  import opened Db
  import opened Store

  /** The query string of `GET`; "" or `None` is a parameter left out. `limit` is
      the result of `parseInt`, present only when the parameter is a count. */
  datatype Params = Params(limit: Option<nat>, startDate: string, endDate: string, categoryId: Option<Id>, kind: string)

  /** The filters the handler adds to the query: the type only when it is income or expense. */
  function FiltersOf(p: Params): TransactionFilters {
    TransactionFilters(if IsKind(p.kind) then p.kind else "", p.categoryId, p.startDate, p.endDate)
  }

  /** The rows `GET` returns to the caller `uid`: their own, within the given dates,
      of the given category, and of the given type when it is income or expense. */
  predicate Selected(t: Transaction, uid: Id, p: Params) {
    && t.userId == uid
    && (p.startDate == "" || StrLe(p.startDate, t.date))
    && (p.endDate == "" || StrLe(t.date, p.endDate))
    && (p.categoryId.None? || t.categoryId == p.categoryId.value)
    && (IsKind(p.kind) ==> t.kind == p.kind)
  }

  /** The filters of a request select exactly the rows `Selected` describes. */
  lemma FiltersSelect(t: Transaction, uid: Id, p: Params)
    ensures MatchesFilters(t, uid, FiltersOf(p)) <==> Selected(t, uid, p)
  {
  }

  /** One row of the reply. */
  datatype TransactionView = TransactionView(
    id: Id, amount: real, kind: string, description: string, date: string, categoryId: Id, categoryName: string)

  /** `transactions.map(...)`: the row's own columns and the name of the joined category. */
  function Format(cats: seq<Category>, rows: seq<Transaction>): (r: seq<TransactionView>)
    ensures |r| == |rows|
    ensures forall i :: 0 <= i < |rows| ==>
              var t, v := rows[i], r[i];
              v.id == t.id && v.amount == t.amount && v.kind == t.kind && v.description == t.description
              && v.date == t.date && v.categoryId == t.categoryId
    ensures forall i :: 0 <= i < |rows| ==>
              r[i].categoryName == UnknownName
              || exists c :: c in cats && c.id == rows[i].categoryId && c.name == r[i].categoryName
    ensures forall i :: 0 <= i < |rows| ==>
              (forall c :: c in cats ==> c.id != rows[i].categoryId) ==> r[i].categoryName == UnknownName
    ensures DistinctKeys(cats, CategoryId) ==>
              forall i, c :: 0 <= i < |rows| && c in cats && c.id == rows[i].categoryId ==>
                r[i].categoryName == ShownName(c)
  {
    if rows == [] then []
    else
      var t := rows[0];
      [TransactionView(t.id, t.amount, t.kind, t.description, t.date, t.categoryId, JoinedName(cats, t.categoryId))]
      + Format(cats, rows[1..])
  }

  /** `query.limit(n)` when a limit is given. */
  function Limit(rows: seq<Transaction>, limit: Option<nat>): (r: seq<Transaction>)
    ensures limit.None? ==> r == rows
    ensures limit.Some? ==> |r| == (if limit.value < |rows| then limit.value else |rows|)
    ensures r == rows[..|r|]
  {
    if limit.Some? then Take(rows, limit.value) else rows
  }

  /** `GET`: the caller's selected rows, newest first, at most `limit` of them.
      `matched` is every selected row, before the limit. */
  method Get(db: Database, auth: Option<Id>, p: Params, storeFails: bool)
    returns (resp: Response<seq<TransactionView>>, ghost matched: seq<Transaction>)
    ensures auth.None? ==> resp == Unauthorized()
    ensures auth.Some? && storeFails ==> resp == Err(500, "Failed to fetch transactions")
    ensures auth.Some? && !storeFails ==> resp == Ok(200, Format(db.categories, Limit(matched, p.limit)))
    ensures auth.Some? ==>
              forall t :: multiset(matched)[t] == if Selected(t, auth.value, p) then multiset(db.transactions)[t] else 0
    ensures Sorted(matched, DateKey, true) && Sorted(Limit(matched, p.limit), DateKey, true)
  {
    if auth.None? {
      return Unauthorized(), [];
    }
    var rows := SelectTransactions(db.transactions, auth.value, FiltersOf(p));
    matched := rows;
    forall t ensures MatchesFilters(t, auth.value, FiltersOf(p)) <==> Selected(t, auth.value, p) {
      FiltersSelect(t, auth.value, p);
    }
    if p.limit.Some? {
      TakeSorted(rows, p.limit.value, DateKey, true);
      rows := Take(rows, p.limit.value);
    }
    if storeFails {
      return Err(500, "Failed to fetch transactions"), matched;
    }
    return Ok(200, Format(db.categories, rows)), matched;
  }

  /** `POST`: validate the body, check that the category is the caller's and of the
      same type, then insert one row owned by the caller. Every rejection leaves the
      store as it was. */
  method Post(db: Database, auth: Option<Id>, body: TransactionInput, today: string, insertFails: bool)
    returns (resp: Response<Transaction>)
    requires db.Valid()
    modifies db
    ensures db.Valid()
    ensures auth.None? ==> resp == Unauthorized() && unchanged(db)
    ensures auth.Some? && ValidateTransaction(body, today).Fail? ==>
              resp == Err(400, ValidateTransaction(body, today).error.Message()) && unchanged(db)
    ensures auth.Some? && ValidateTransaction(body, today).Pass? ==>
              var cat := OwnedCategory(old(db.categories), body.categoryId.value, auth.value);
              && (cat.None? ==> resp == Err(400, "Category not found") && unchanged(db))
              && (cat.Some? && cat.value.kind != body.kind ==>
                    resp == Err(400, "Category type does not match transaction type") && unchanged(db))
              && (cat.Some? && cat.value.kind == body.kind && insertFails ==>
                    resp == Err(500, "Failed to create transaction") && unchanged(db))
              && (cat.Some? && cat.value.kind == body.kind && !insertFails ==>
                    && resp == Ok(201, Transaction(FreshId(old(db.transactions), TransactionId), auth.value,
                                                   body.amount.value, body.kind, body.categoryId.value,
                                                   body.description, body.date))
                    && db.transactions == old(db.transactions) + [resp.data]
                    && db.users == old(db.users) && db.categories == old(db.categories)
                    && db.budgets == old(db.budgets))
  {
    if auth.None? {
      return Unauthorized();
    }
    var v := ValidateTransaction(body, today);
    if v.Fail? {
      return Err(400, v.error.Message());
    }
    var cat := OwnedCategory(db.categories, body.categoryId.value, auth.value);
    if cat.None? {
      return Err(400, "Category not found");
    }
    if cat.value.kind != body.kind {
      return Err(400, "Category type does not match transaction type");
    }
    if insertFails {
      return Err(500, "Failed to create transaction");
    }
    ghost var before := db.transactions;
    var row := db.InsertTransaction(auth.value, body.amount.value, body.kind, body.categoryId.value,
                                    body.description, body.date);
    assert FiledUnder(row, db.categories) by {
      assert cat.value in db.categories;
    }
    AddTransaction(db.users, db.categories, before, db.budgets, row);
    return Ok(201, row);
  }
}
