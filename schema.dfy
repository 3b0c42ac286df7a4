/**
 * The ledger's tables, request results and shared constants.
 * Ids are natural numbers; `created_at` timestamps are not modelled.
 */
module Schema {
  import opened Wrappers
  import Query

  type Id = nat

  const Income: string := "income"
  const Expense: string := "expense"

  /** `['income', 'expense'].includes(type)`. */
  predicate IsKind(t: string) {
    t == Income || t == Expense
  }

  datatype Role = UserRole | AdminRole

  function RoleName(r: Role): string {
    match r
    case UserRole => "user"
    case AdminRole => "admin"
  }

  /** `['user', 'admin'].includes(role)`, as a closed enumeration. */
  function ParseRole(s: string): (r: Option<Role>)
    ensures r.Some? <==> (s == "user" || s == "admin")
    ensures r.Some? ==> RoleName(r.value) == s
  {
    if s == "user" then Some(UserRole)
    else if s == "admin" then Some(AdminRole)
    else None
  }

  datatype User = User(id: Id, email: string, passwordDigest: string, role: Role)

  /** A row of `categories`; `kind` is the `type` column. */
  datatype Category = Category(id: Id, userId: Id, name: string, kind: string)

  /** A row of `transactions`; dates are `YYYY-MM-DD` strings. */
  datatype Transaction = Transaction(
    id: Id, userId: Id, amount: real, kind: string, categoryId: Id, description: string, date: string)

  /** A row of `budgets`; `month` is a `YYYY-MM` string. */
  datatype Budget = Budget(id: Id, userId: Id, categoryId: Id, limitAmount: real, month: string)

  /** An HTTP reply: a status with either the `data` or the `error` of the JSON body. */
  datatype Response<T> = Ok(status: nat, data: T) | Err(status: nat, error: string)

  function Unauthorized<T>(): Response<T> {
    Err(401, "Unauthorized")
  }

  /** Name shown when a joined category is missing or has an empty name. */
  const UnknownName: string := "Unknown"

  function CategoryId(c: Category): Id { c.id }
  function TransactionId(t: Transaction): Id { t.id }
  function BudgetId(b: Budget): Id { b.id }
  function UserId(u: User): Id { u.id }
  function UserEmail(u: User): string { u.email }

  /** The name of the category a row refers to (the `categories:category_id` join), or "Unknown". */
  function JoinedName(cats: seq<Category>, id: Id): (r: string)
    ensures r != UnknownName ==> exists c :: c in cats && c.id == id && c.name == r
    ensures (forall c :: c in cats ==> c.id != id) ==> r == UnknownName
    ensures Query.DistinctKeys(cats, CategoryId) ==>
              forall c :: c in cats && c.id == id ==> r == ShownName(c)
  {
    if cats == [] then UnknownName
    else if cats[0].id == id then
      assert Query.DistinctKeys(cats, CategoryId) ==> forall j :: 0 < j < |cats| ==> cats[j].id != id;
      ShownName(cats[0])
    else
      assert forall c :: c in cats && c.id == id ==> c in cats[1..];
      assert Query.DistinctKeys(cats, CategoryId) ==> Query.DistinctKeys(cats[1..], CategoryId) by {
        assert forall j :: 0 <= j < |cats| - 1 ==> cats[1..][j] == cats[j + 1];
      }
      JoinedName(cats[1..], id)
  }

  /** `category?.name || 'Unknown'`: an empty name shows as "Unknown". */
  function ShownName(c: Category): string {
    if c.name == "" then UnknownName else c.name
  }
}
