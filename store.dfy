/**
 * The four tables the handlers read and write, as one store object whose
 * fields the insert and update operations reassign. `Valid` collects the
 * uniqueness and consistency facts every handler keeps.
 */
module Store {
  import opened Wrappers
  import opened Query
  import opened Schema

  /** The duplicate check of category creation looks rows up by this triple. */
  function CategoryKey(c: Category): (Id, string, string) { (c.userId, c.name, c.kind) }

  /** The budget upsert looks rows up by this triple. */
  function BudgetKey(b: Budget): (Id, Id, string) { (b.userId, b.categoryId, b.month) }

  /** A transaction is filed under a category of its own user and of its own type. */
  ghost predicate FiledUnder(t: Transaction, cats: seq<Category>) {
    exists c :: c in cats && c.id == t.categoryId && c.userId == t.userId && c.kind == t.kind
  }

  /** A budget is set on an expense category of its own user. */
  ghost predicate SetOnExpense(b: Budget, cats: seq<Category>) {
    exists c :: c in cats && c.id == b.categoryId && c.userId == b.userId && c.kind == Expense
  }

  function IsOwnedCategory(id: Id, uid: Id): Category -> bool {
    (c: Category) => c.id == id && c.userId == uid
  }

  /** `from('categories').eq('id', id).eq('user_id', uid).single()`. */
  function OwnedCategory(cats: seq<Category>, id: Id, uid: Id): (r: Option<Category>)
    ensures r.Some? ==> r.value in cats && r.value.id == id && r.value.userId == uid
    ensures DistinctKeys(cats, CategoryId) ==> (r.None? <==> forall c :: c in cats ==> !(c.id == id && c.userId == uid))
  {
    match Single(cats, IsOwnedCategory(id, uid))
    case Some(i) => Some(cats[i])
    case None => None
  }

  /** The uniqueness and consistency facts of the four tables: unique user ids and
      e-mails, unique category ids and (user, name, type) triples of a known type,
      unique transaction ids of positive amounts filed under a matching category,
      unique budget ids and (user, category, month) triples of positive limits set
      on an expense category. */
  ghost predicate Consistent(users: seq<User>, categories: seq<Category>,
                             transactions: seq<Transaction>, budgets: seq<Budget>) {
    && DistinctKeys(users, UserId) && DistinctKeys(users, UserEmail)
    && DistinctKeys(categories, CategoryId) && DistinctKeys(categories, CategoryKey)
    && (forall c :: c in categories ==> IsKind(c.kind))
    && DistinctKeys(transactions, TransactionId)
    && (forall t :: t in transactions ==> t.amount > 0.0 && FiledUnder(t, categories))
    && DistinctKeys(budgets, BudgetId) && DistinctKeys(budgets, BudgetKey)
    && (forall b :: b in budgets ==> b.limitAmount > 0.0 && SetOnExpense(b, categories))
  }

  /** A row with a fresh id, a positive amount and a matching category of its user keeps the tables consistent. */
  lemma AddTransaction(users: seq<User>, categories: seq<Category>, transactions: seq<Transaction>,
                       budgets: seq<Budget>, row: Transaction)
    requires Consistent(users, categories, transactions, budgets)
    requires row.id == FreshId(transactions, TransactionId) && row.amount > 0.0 && FiledUnder(row, categories)
    ensures Consistent(users, categories, transactions + [row], budgets)
  {
    DistinctKeysAppend(transactions, row, TransactionId);
  }

  /** So does a category with a fresh id, a known type and a (user, name, type) triple not yet taken. */
  lemma AddCategory(users: seq<User>, categories: seq<Category>, transactions: seq<Transaction>,
                    budgets: seq<Budget>, row: Category)
    requires Consistent(users, categories, transactions, budgets)
    requires row.id == FreshId(categories, CategoryId) && IsKind(row.kind)
    requires forall c :: c in categories ==> CategoryKey(c) != CategoryKey(row)
    ensures Consistent(users, categories + [row], transactions, budgets)
  {
    DistinctKeysAppend(categories, row, CategoryId);
    DistinctKeysAppend(categories, row, CategoryKey);
    forall t | t in transactions ensures FiledUnder(t, categories + [row]) {
      var c :| c in categories && c.id == t.categoryId && c.userId == t.userId && c.kind == t.kind;
      assert c in categories + [row];
    }
    forall b | b in budgets ensures SetOnExpense(b, categories + [row]) {
      var c :| c in categories && c.id == b.categoryId && c.userId == b.userId && c.kind == Expense;
      assert c in categories + [row];
    }
  }

  /** So does a budget with a fresh id, a positive limit, an expense category of its user
      and a (user, category, month) triple not yet taken. */
  lemma AddBudget(users: seq<User>, categories: seq<Category>, transactions: seq<Transaction>,
                  budgets: seq<Budget>, row: Budget)
    requires Consistent(users, categories, transactions, budgets)
    requires row.id == FreshId(budgets, BudgetId) && row.limitAmount > 0.0 && SetOnExpense(row, categories)
    requires forall b :: b in budgets ==> BudgetKey(b) != BudgetKey(row)
    ensures Consistent(users, categories, transactions, budgets + [row])
  {
    DistinctKeysAppend(budgets, row, BudgetId);
    DistinctKeysAppend(budgets, row, BudgetKey);
  }

  /** Changing the limit of one budget to another positive amount keeps the tables consistent. */
  lemma SetBudgetLimit(users: seq<User>, categories: seq<Category>, transactions: seq<Transaction>,
                       budgets: seq<Budget>, i: nat, limit: real)
    requires Consistent(users, categories, transactions, budgets)
    requires i < |budgets| && limit > 0.0
    ensures Consistent(users, categories, transactions, budgets[i := budgets[i].(limitAmount := limit)])
  {
    var nb := budgets[i := budgets[i].(limitAmount := limit)];
    assert forall j :: 0 <= j < |nb| ==> BudgetId(nb[j]) == BudgetId(budgets[j]) && BudgetKey(nb[j]) == BudgetKey(budgets[j]);
    forall b | b in nb ensures b.limitAmount > 0.0 && SetOnExpense(b, categories) {
      var j :| 0 <= j < |nb| && nb[j] == b;
      assert budgets[j] in budgets;
    }
  }

  /** So does a user with an id and an e-mail no user has yet. */
  lemma AddUser(users: seq<User>, categories: seq<Category>, transactions: seq<Transaction>,
                budgets: seq<Budget>, row: User)
    requires Consistent(users, categories, transactions, budgets)
    requires forall u :: u in users ==> u.id != row.id && u.email != row.email
    ensures Consistent(users + [row], categories, transactions, budgets)
  {
    DistinctKeysAppend(users, row, UserId);
    DistinctKeysAppend(users, row, UserEmail);
  }

  /** So does a batch of categories of known types whose ids and (user, name, type)
      triples are new and distinct. */
  lemma AddCategories(users: seq<User>, categories: seq<Category>, transactions: seq<Transaction>,
                      budgets: seq<Budget>, rows: seq<Category>)
    requires Consistent(users, categories, transactions, budgets)
    requires DistinctKeys(categories + rows, CategoryId) && DistinctKeys(categories + rows, CategoryKey)
    requires forall c :: c in rows ==> IsKind(c.kind)
    ensures Consistent(users, categories + rows, transactions, budgets)
  {
    forall t | t in transactions ensures FiledUnder(t, categories + rows) {
      var c :| c in categories && c.id == t.categoryId && c.userId == t.userId && c.kind == t.kind;
      assert c in categories + rows;
    }
    forall b | b in budgets ensures SetOnExpense(b, categories + rows) {
      var c :| c in categories && c.id == b.categoryId && c.userId == b.userId && c.kind == Expense;
      assert c in categories + rows;
    }
  }

  /** So does a batch of categories, all of one user who owns none yet, with distinct
      ids from the next fresh id on and distinct (user, name, type) triples. */
  lemma AddOwnerBatch(users: seq<User>, categories: seq<Category>, transactions: seq<Transaction>,
                      budgets: seq<Budget>, rows: seq<Category>, uid: Id)
    requires Consistent(users, categories, transactions, budgets)
    requires forall i :: 0 <= i < |categories| ==> categories[i].userId < uid
    requires forall c :: c in rows ==> c.userId == uid && FreshId(categories, CategoryId) <= c.id && IsKind(c.kind)
    requires DistinctKeys(rows, CategoryId) && DistinctKeys(rows, CategoryKey)
    ensures Consistent(users, categories + rows, transactions, budgets)
  {
    assert forall j :: 0 <= j < |rows| ==> rows[j] in rows;
    DistinctKeysConcat(categories, rows, CategoryId);
    DistinctKeysConcat(categories, rows, CategoryKey);
    AddCategories(users, categories, transactions, budgets, rows);
  }

  class Database {
    var users: seq<User>
    var categories: seq<Category>
    var transactions: seq<Transaction>
    var budgets: seq<Budget>

    ghost predicate Valid()
      reads this
    {
      Consistent(users, categories, transactions, budgets)
    }

    constructor ()
      ensures Valid()
      ensures users == [] && categories == [] && transactions == [] && budgets == []
    {
      users, categories, transactions, budgets := [], [], [], [];
    }

    /** The id the store gives the next user: one no row of any table refers to yet. */
    function NextUserId(): (id: Id)
      reads this
      ensures id > 0
      ensures forall i :: 0 <= i < |users| ==> users[i].id < id
      ensures forall i :: 0 <= i < |categories| ==> categories[i].userId < id
      ensures forall i :: 0 <= i < |transactions| ==> transactions[i].userId < id
      ensures forall i :: 0 <= i < |budgets| ==> budgets[i].userId < id
    {
      var a := FreshId(users, UserId);
      var b := FreshId(categories, (c: Category) => c.userId);
      var c := FreshId(transactions, (t: Transaction) => t.userId);
      var d := FreshId(budgets, (x: Budget) => x.userId);
      Max(Max(a, b), Max(c, d))
    }

    /** `insert(row).select().single()` on `transactions`: the store picks the id. */
    method InsertTransaction(uid: Id, amount: real, kind: string, cid: Id, description: string, date: string)
      returns (row: Transaction)
      modifies this
      ensures row == Transaction(FreshId(old(transactions), TransactionId), uid, amount, kind, cid, description, date)
      ensures transactions == old(transactions) + [row]
      ensures users == old(users) && categories == old(categories) && budgets == old(budgets)
    {
      row := Transaction(FreshId(transactions, TransactionId), uid, amount, kind, cid, description, date);
      transactions := transactions + [row];
    }

    /** `insert(row).select().single()` on `categories`. */
    method InsertCategory(uid: Id, name: string, kind: string) returns (row: Category)
      modifies this
      ensures row == Category(FreshId(old(categories), CategoryId), uid, name, kind)
      ensures categories == old(categories) + [row]
      ensures users == old(users) && transactions == old(transactions) && budgets == old(budgets)
    {
      row := Category(FreshId(categories, CategoryId), uid, name, kind);
      categories := categories + [row];
    }

    /** A batch `insert(rows)` on `categories`, the ids handed out in order. */
    method InsertCategories(rows: seq<Category>)
      modifies this
      ensures categories == old(categories) + rows
      ensures users == old(users) && transactions == old(transactions) && budgets == old(budgets)
    {
      categories := categories + rows;
    }

    /** `insert(row).select().single()` on `users`. */
    method InsertUser(email: string, passwordDigest: string, role: Role) returns (row: User)
      modifies this
      ensures row == User(old(NextUserId()), email, passwordDigest, role)
      ensures users == old(users) + [row]
      ensures categories == old(categories) && transactions == old(transactions) && budgets == old(budgets)
    {
      row := User(NextUserId(), email, passwordDigest, role);
      users := users + [row];
    }

    /** `insert(row).select().single()` on `budgets`. */
    method InsertBudget(uid: Id, cid: Id, limit: real, month: string) returns (row: Budget)
      modifies this
      ensures row == Budget(FreshId(old(budgets), BudgetId), uid, cid, limit, month)
      ensures budgets == old(budgets) + [row]
      ensures users == old(users) && categories == old(categories) && transactions == old(transactions)
    {
      row := Budget(FreshId(budgets, BudgetId), uid, cid, limit, month);
      budgets := budgets + [row];
    }

    /** `update({ limit_amount }).eq('id', ...)` on the budget at index `i`. */
    method UpdateBudgetLimit(i: nat, limit: real) returns (row: Budget)
      requires i < |budgets|
      modifies this
      ensures row == old(budgets[i]).(limitAmount := limit)
      ensures budgets == old(budgets)[i := row]
      ensures users == old(users) && categories == old(categories) && transactions == old(transactions)
    {
      row := budgets[i].(limitAmount := limit);
      budgets := budgets[i := row];
    }
  }

  function Max(a: nat, b: nat): (m: nat)
    ensures a <= m && b <= m && (m == a || m == b)
  {
    if a < b then b else a
  }
}
