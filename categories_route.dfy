/**
 * `GET /api/categories` and `POST /api/categories`. The handler makes its own
 * two field checks instead of calling `validateCategory`, trims the name, and
 * rejects a (user, trimmed name, type) triple that is already taken.
 */
module CategoriesRoute {
  import opened Wrappers
  import opened Text
  import opened Query
  import opened Schema
  import opened Validation
  import opened Db
  import opened Store

  /** `order('type').order('name')`, both ascending. */
  function KindNameKey(c: Category): seq<string> { [c.kind, c.name] }

  /** `GET`: the caller's categories by type, then by name. */
  method Get(db: Database, auth: Option<Id>, storeFails: bool) returns (resp: Response<seq<Category>>)
    ensures auth.None? ==> resp == Unauthorized()
    ensures auth.Some? && storeFails ==> resp == Err(500, "Failed to fetch categories")
    ensures auth.Some? && !storeFails ==> resp.Ok? && resp.status == 200
    ensures resp.Ok? ==> forall c :: multiset(resp.data)[c] == if c.userId == auth.value then multiset(db.categories)[c] else 0
    ensures resp.Ok? ==> Sorted(resp.data, KindNameKey, false)
  {
    if auth.None? {
      return Unauthorized();
    }
    var q := CategoryQuery(auth.value, "");
    var rows := SortBy(Where(db.categories, q), KindNameKey, false);
    if storeFails {
      return Err(500, "Failed to fetch categories");
    }
    return Ok(200, rows);
  }

  /** The two checks of `POST`: a name that is not blank, then a type of income or expense. */
  function RequestError(name: string, kind: string): (r: Option<string>)
    ensures r == Some("Category name is required") <==> AllSpace(name)
    ensures r == Some("Invalid category type") <==> !AllSpace(name) && !IsKind(kind)
    ensures r.None? <==> !AllSpace(name) && IsKind(kind)
  {
    TrimEmptyIffAllSpace(name);
    if Trim(name) == "" then Some("Category name is required")
    else if !IsKind(kind) then Some("Invalid category type")
    else None
  }

  /** Whatever `validateCategory` accepts the handler accepts; up to 50 characters the
      two agree, with the same message. */
  lemma RequestErrorAgreesUpToFifty(name: string, kind: string)
    ensures ValidateCategory(name, kind).Pass? ==> RequestError(name, kind).None?
    ensures |name| <= MaxNameLength ==>
              (RequestError(name, kind).None? <==> ValidateCategory(name, kind).Pass?)
    ensures |name| <= MaxNameLength && RequestError(name, kind).Some? ==>
              RequestError(name, kind).value == ValidateCategory(name, kind).error.Message()
  {
  }

  /** The 50-character cap of `validateCategory` is not enforced: a 51-character name is created. */
  lemma LongNameAccepted()
    ensures var name := seq(51, _ => 'a');
            RequestError(name, Expense).None? && ValidateCategory(name, Expense) == Fail(CategoryNameTooLong)
  {
    var name := seq(51, _ => 'a');
    assert !IsSpace(name[0]);
  }

  function KeyIs(key: (Id, string, string)): Category -> bool {
    (c: Category) => CategoryKey(c) == key
  }

  /** The duplicate query `.eq('user_id').eq('name', name.trim()).eq('type').single()` finds a row. */
  function Duplicate(cats: seq<Category>, uid: Id, name: string, kind: string): (r: bool)
    ensures r ==> exists c :: c in cats && c.userId == uid && c.name == Trim(name) && c.kind == kind
    ensures DistinctKeys(cats, CategoryKey) ==>
              (r <==> exists c :: c in cats && c.userId == uid && c.name == Trim(name) && c.kind == kind)
  {
    var p := KeyIs((uid, Trim(name), kind));
    var found := Single(cats, p);
    if found.Some? then
      assert cats[found.value] in cats;
      true
    else if DistinctKeys(cats, CategoryKey) then
      KeyedAtMostOne(cats, CategoryKey, (uid, Trim(name), kind), p);
      SingleFindsUnique(cats, p);
      false
    else
      false
  }

  /** The duplicate key holds the type: a name the caller has only under one type is
      free under the other. */
  lemma OtherTypeIsNoDuplicate(cats: seq<Category>, uid: Id, name: string, kind: string, other: string)
    requires DistinctKeys(cats, CategoryKey) && other != kind
    requires forall c :: c in cats && c.userId == uid && c.name == Trim(name) ==> c.kind == kind
    ensures !Duplicate(cats, uid, name, other)
  {
  }

  /** `"Food"` taken as income does not block `"Food"` as expense, and `" Food "` is
      the same name as `"Food"`. */
  lemma FoodExamples(uid: Id)
    ensures Duplicate([Category(1, uid, "Food", Income)], uid, "Food", Income)
    ensures !Duplicate([Category(1, uid, "Food", Income)], uid, "Food", Expense)
    ensures Duplicate([Category(1, uid, "Food", Expense)], uid, " Food ", Expense)
  {
    TrimFood();
    DuplicateInOne(Category(1, uid, "Food", Income), uid, "Food", Income);
    DuplicateInOne(Category(1, uid, "Food", Income), uid, "Food", Expense);
    DuplicateInOne(Category(1, uid, "Food", Expense), uid, " Food ", Expense);
  }

  /** Against a table of one row the duplicate check compares with that row. */
  lemma DuplicateInOne(c: Category, uid: Id, name: string, kind: string)
    ensures Duplicate([c], uid, name, kind) <==> c.userId == uid && c.name == Trim(name) && c.kind == kind
  {
    var t := Trim(name);
    assert DistinctKeys([c], CategoryKey);
    assert forall x :: x in [c] <==> x == c;
    assert (exists x :: x in [c] && x.userId == uid && x.name == t && x.kind == kind)
           <==> c.userId == uid && c.name == t && c.kind == kind;
  }

  lemma TrimFood()
    ensures Trim("Food") == "Food" && Trim(" Food ") == "Food"
  {
    assert !IsSpace('F') && !IsSpace('d') && IsSpace(' ');
    assert TrimStart("Food") == "Food";
    assert TrimStart(" Food ") == TrimStart("Food ") == "Food ";
    assert TrimEnd("Food ") == TrimEnd("Food") == "Food";
  }

  /** `POST`: the field checks, the duplicate check, then the insert of one row with the
      trimmed name owned by the caller. Every rejection leaves the store as it was. */
  method Post(db: Database, auth: Option<Id>, name: string, kind: string, insertFails: bool)
    returns (resp: Response<Category>)
    requires db.Valid()
    modifies db
    ensures db.Valid()
    ensures auth.None? ==> resp == Unauthorized() && unchanged(db)
    ensures auth.Some? && RequestError(name, kind).Some? ==>
              resp == Err(400, RequestError(name, kind).value) && unchanged(db)
    ensures auth.Some? && RequestError(name, kind).None? && Duplicate(old(db.categories), auth.value, name, kind) ==>
              resp == Err(400, "Category with this name already exists") && unchanged(db)
    ensures auth.Some? && RequestError(name, kind).None? && !Duplicate(old(db.categories), auth.value, name, kind) ==>
              && (insertFails ==> resp == Err(500, "Failed to create category") && unchanged(db))
              && (!insertFails ==>
                    && resp == Ok(201, Category(FreshId(old(db.categories), CategoryId), auth.value, Trim(name), kind))
                    && db.categories == old(db.categories) + [resp.data]
                    && db.users == old(db.users) && db.transactions == old(db.transactions)
                    && db.budgets == old(db.budgets))
  {
    if auth.None? {
      return Unauthorized();
    }
    var error := RequestError(name, kind);
    if error.Some? {
      return Err(400, error.value);
    }
    if Duplicate(db.categories, auth.value, name, kind) {
      return Err(400, "Category with this name already exists");
    }
    if insertFails {
      return Err(500, "Failed to create category");
    }
    ghost var before := db.categories;
    var row := db.InsertCategory(auth.value, Trim(name), kind);
    AddCategory(db.users, before, db.transactions, db.budgets, row);
    return Ok(201, row);
  }
}
