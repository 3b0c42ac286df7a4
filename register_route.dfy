/**
 * `POST /api/auth/register`: the e-mail, password and role checks in that order,
 * the duplicate e-mail check, the user insert, the eight default categories and
 * the session cookie. Hashing is the parameter `hash`; the signed token is
 * represented by the claims it carries.
 */
module RegisterRoute {
  import opened Wrappers
  import opened Query
  import opened Schema
  import opened Validation
  import opened Db
  import opened Store

  /** The body of the reply: the new user's id, e-mail and role, and nothing else. */
  datatype UserView = UserView(id: Id, email: string, role: string)

  /** What the token is signed over. */
  datatype Claims = Claims(userId: Id, email: string, role: Role)

  datatype Cookie = Cookie(name: string, token: Claims, httpOnly: bool, sameSite: string, maxAge: nat)

  datatype Reply = Reply(response: Response<UserView>, cookie: Option<Cookie>)

  /** Seven days, in seconds. */
  const TokenMaxAge: nat := 60 * 60 * 24 * 7

  /** The three field checks, in order: e-mail shape, password length, role. */
  function RequestError(email: string, password: string, role: string): (r: Option<string>)
    ensures r == Some("Invalid email format") <==> !EmailShape(email)
    ensures EmailShape(email) && |password| < 6 ==> r == Some(PasswordTooShort.Message())
    ensures r == Some("Invalid role") <==> EmailShape(email) && |password| >= 6 && ParseRole(role).None?
    ensures r.None? <==> EmailShape(email) && |password| >= 6 && (role == "user" || role == "admin")
  {
    if !ValidateEmail(email) then Some("Invalid email format")
    else if ValidatePassword(password).Fail? then Some(ValidatePassword(password).error.Message())
    else if ParseRole(role).None? then Some("Invalid role")
    else None
  }

  function EmailIs(email: string): User -> bool {
    (u: User) => u.email == email
  }

  /** `.from('users').eq('email', email).single()` finds a row: the e-mail is compared as given. */
  function EmailTaken(users: seq<User>, email: string): (r: bool)
    ensures r ==> exists u :: u in users && u.email == email
    ensures DistinctKeys(users, UserEmail) ==> (r <==> exists u :: u in users && u.email == email)
  {
    var p := EmailIs(email);
    var found := Single(users, p);
    if found.Some? then
      assert users[found.value] in users;
      true
    else if DistinctKeys(users, UserEmail) then
      KeyedAtMostOne(users, UserEmail, email, p);
      SingleFindsUnique(users, p);
      false
    else
      false
  }

  /** E-mails are not normalised: an account under "Ann@example.com" does not block "ann@example.com". */
  lemma EmailIsCaseSensitive(d: string)
    ensures !EmailTaken([User(1, "Ann@example.com", d, UserRole)], "ann@example.com")
  {
    var u := User(1, "Ann@example.com", d, UserRole);
    assert DistinctKeys([u], UserEmail);
    assert u.email[0] != "ann@example.com"[0];
    assert forall x :: x in [u] ==> x == u;
  }

  /** The names and types of the default categories, in the order of the batch insert. */
  const DefaultNames: seq<string> :=
    ["Salary", "Freelance", "Food", "Transport", "Entertainment", "Utilities", "Shopping", "Healthcare"]
  const DefaultKinds: seq<string> := [Income, Income, Expense, Expense, Expense, Expense, Expense, Expense]

  /** The rows of the batch insert that seeds a new user's categories, numbered from `firstId`. */
  function DefaultCategories(uid: Id, firstId: Id): seq<Category> {
    seq(8, i requires 0 <= i < 8 => Category(firstId + i, uid, DefaultNames[i], DefaultKinds[i]))
  }

  lemma DefaultNamesDistinct()
    ensures forall i, j :: 0 <= i < j < 8 ==> DefaultNames[i] != DefaultNames[j]
  {
    var n := DefaultNames;
    assert n[0][0] == 'S' && n[0][1] == 'a' && |n[0]| == 6;
    assert n[1][0] == 'F' && |n[1]| == 9;
    assert n[2][0] == 'F' && |n[2]| == 4;
    assert n[3][0] == 'T' && |n[3]| == 9;
    assert n[4][0] == 'E' && |n[4]| == 13;
    assert n[5][0] == 'U' && |n[5]| == 9;
    assert n[6][0] == 'S' && n[6][1] == 'h' && |n[6]| == 8;
    assert n[7][0] == 'H' && |n[7]| == 10;
  }

  function CategoryName(c: Category): string { c.name }

  /** Eight categories of the new user, with distinct names and ids from `firstId` on;
      Salary and Freelance are the income ones, the other six are expense. */
  lemma DefaultCategoriesShape(uid: Id, firstId: Id)
    ensures var r := DefaultCategories(uid, firstId);
            && |r| == 8
            && (forall c :: c in r ==> c.userId == uid && firstId <= c.id < firstId + 8 && IsKind(c.kind))
            && (forall c :: c in r ==> (c.kind == Income <==> c.name == "Salary" || c.name == "Freelance"))
            && DistinctKeys(r, CategoryId) && DistinctKeys(r, CategoryName) && DistinctKeys(r, CategoryKey)
  {
    var r := DefaultCategories(uid, firstId);
    DefaultNamesDistinct();
    assert forall i :: 0 <= i < 8 ==> (DefaultKinds[i] == Income <==> i < 2) && IsKind(DefaultKinds[i]);
    assert forall i :: 2 <= i < 8 ==> DefaultNames[i] != "Salary" && DefaultNames[i] != "Freelance" by {
      assert forall i :: 2 <= i < 8 ==> DefaultNames[i] != DefaultNames[0] && DefaultNames[i] != DefaultNames[1];
    }
    forall c | c in r
      ensures c.userId == uid && firstId <= c.id < firstId + 8 && IsKind(c.kind)
      ensures c.kind == Income <==> c.name == "Salary" || c.name == "Freelance"
    {
      var i :| 0 <= i < 8 && r[i] == c;
    }
  }

  /** A fresh user id owns none of the old categories, so after seeding the user's
      categories are exactly the seeded rows... */
  lemma NewUserOwnsOnlySeeds(cats: seq<Category>, seeds: seq<Category>, uid: Id)
    requires forall i :: 0 <= i < |cats| ==> cats[i].userId < uid
    requires forall c :: c in seeds ==> c.userId == uid
    ensures Filter(cats + seeds, CategoryOwnedBy(uid)) == seeds
  {
    var p := CategoryOwnedBy(uid);
    assert forall i :: 0 <= i < |seeds| ==> seeds[i] in seeds;
    FilterAll(seeds, p);
    FilterNone(cats, p);
    FilterAppend(cats, seeds, p);
    assert [] + seeds == seeds;
  }

  /** ...which are the eight defaults. */
  lemma NewUserOwnsOnlyDefaults(cats: seq<Category>, uid: Id, firstId: Id)
    requires forall i :: 0 <= i < |cats| ==> cats[i].userId < uid
    ensures Filter(cats + DefaultCategories(uid, firstId), CategoryOwnedBy(uid)) == DefaultCategories(uid, firstId)
  {
    DefaultCategoriesShape(uid, firstId);
    NewUserOwnsOnlySeeds(cats, DefaultCategories(uid, firstId), uid);
  }

  lemma DefaultsFitBatch(uid: Id, firstId: Id)
    ensures var r := DefaultCategories(uid, firstId);
            && (forall c :: c in r ==> c.userId == uid && firstId <= c.id && IsKind(c.kind))
            && DistinctKeys(r, CategoryId) && DistinctKeys(r, CategoryKey)
  {
    DefaultCategoriesShape(uid, firstId);
  }

  /** `POST`. A rejection writes nothing; once the user row is written the reply is 201
      whether or not the batch insert of the default categories succeeds. */
  method Post(db: Database, email: string, password: string, role: string, hash: string -> string,
              userInsertFails: bool, seedFails: bool)
    returns (reply: Reply)
    requires db.Valid()
    modifies db
    ensures db.Valid()
    ensures RequestError(email, password, role).Some? ==>
              reply == Reply(Err(400, RequestError(email, password, role).value), None) && unchanged(db)
    ensures RequestError(email, password, role).None? && EmailTaken(old(db.users), email) ==>
              reply == Reply(Err(400, "User already exists"), None) && unchanged(db)
    ensures RequestError(email, password, role).None? && !EmailTaken(old(db.users), email) && userInsertFails ==>
              reply == Reply(Err(500, "Failed to create user"), None) && unchanged(db)
    ensures RequestError(email, password, role).None? && !EmailTaken(old(db.users), email) && !userInsertFails ==>
              var id, r := old(db.NextUserId()), ParseRole(role).value;
              && db.users == old(db.users) + [User(id, email, hash(password), r)]
              && db.categories == old(db.categories)
                   + (if seedFails then [] else DefaultCategories(id, FreshId(old(db.categories), CategoryId)))
              && db.transactions == old(db.transactions) && db.budgets == old(db.budgets)
              && reply == Reply(Ok(201, UserView(id, email, role)),
                                Some(Cookie("token", Claims(id, email, r), true, "lax", TokenMaxAge)))
  {
    var error := RequestError(email, password, role);
    if error.Some? {
      return Reply(Err(400, error.value), None);
    }
    if EmailTaken(db.users, email) {
      return Reply(Err(400, "User already exists"), None);
    }
    if userInsertFails {
      return Reply(Err(500, "Failed to create user"), None);
    }
    var r := ParseRole(role).value;
    ghost var users := db.users;
    ghost var id := db.NextUserId();
    assert forall u :: u in users ==> u.id != id && u.email != email by {
      forall u | u in users ensures u.id != id {
        var i :| 0 <= i < |users| && users[i] == u;
      }
    }
    var user := db.InsertUser(email, hash(password), r);
    AddUser(users, db.categories, db.transactions, db.budgets, user);
    if !seedFails {
      ghost var cats := db.categories;
      DefaultsFitBatch(user.id, FreshId(cats, CategoryId));
      AddOwnerBatch(db.users, cats, db.transactions, db.budgets, DefaultCategories(user.id, FreshId(cats, CategoryId)), user.id);
      db.InsertCategories(DefaultCategories(user.id, FreshId(db.categories, CategoryId)));
    }
    return Reply(Ok(201, UserView(user.id, user.email, RoleName(user.role))),
                 Some(Cookie("token", Claims(user.id, user.email, user.role), true, "lax", TokenMaxAge)));
  }
}
