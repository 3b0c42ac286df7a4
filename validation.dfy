/**
 * The guard functions of the validation module: e-mail shape, password length,
 * and the transaction, budget and category payload checks. Each payload check
 * runs its conditions in a fixed order and reports the first one that fails.
 */
module Validation {
  import opened Wrappers
  import opened Text
  import opened Schema
  import Query

  datatype Error =
    | PasswordTooShort
    | AmountNotPositive | AmountTooLarge | TooManyDecimals | InvalidTransactionType
    | CategoryRequired | DescriptionRequired | DateRequired | FutureDate
    | BudgetLimitNotPositive | MonthRequired | InvalidMonthFormat
    | CategoryNameRequired | CategoryNameTooLong | InvalidCategoryType
  {
    /** The exact message the handlers return with status 400. */
    function Message(): string {
      match this
      case PasswordTooShort => "Password must be at least 6 characters long"
      case AmountNotPositive => "Amount must be a positive number"
      case AmountTooLarge => "Amount is too large"
      case TooManyDecimals => "Amount can have at most 2 decimal places"
      case InvalidTransactionType => "Invalid transaction type"
      case CategoryRequired => "Category is required"
      case DescriptionRequired => "Description is required"
      case DateRequired => "Date is required"
      case FutureDate => "Transaction date cannot be in the future"
      case BudgetLimitNotPositive => "Budget limit must be a positive number"
      case MonthRequired => "Month is required"
      case InvalidMonthFormat => "Invalid month format (expected YYYY-MM)"
      case CategoryNameRequired => "Category name is required"
      case CategoryNameTooLong => "Category name is too long (max 50 characters)"
      case InvalidCategoryType => "Invalid category type"
    }
  }

  /** `{valid: true}` or `{valid: false, error}`. */
  datatype Outcome = Pass | Fail(error: Error)

  // ---- e-mail and password ----

  /** A character of `[^\s@]`. */
  predicate RunChar(c: char) {
    !IsSpace(c) && c != '@'
  }

  /** A match of `[^\s@]+`. */
  predicate IsRun(s: string) {
    |s| > 0 && forall i :: 0 <= i < |s| ==> RunChar(s[i])
  }

  /** The strings `/^[^\s@]+@[^\s@]+\.[^\s@]+$/` accepts: run, '@', run, '.', run. */
  ghost predicate EmailShape(s: string) {
    exists i, j :: 0 < i < j < |s| - 1 && s[i] == '@' && s[j] == '.'
                   && IsRun(s[..i]) && IsRun(s[i + 1..j]) && IsRun(s[j + 1..])
  }

  /** The part after '@': a run that has a '.' neither first nor last. */
  predicate DomainOk(d: string) {
    IsRun(d) && exists k :: 0 < k < |d| - 1 && d[k] == '.'
  }

  function IsAt(c: char): bool { c == '@' }

  /** `validateEmail`. */
  function ValidateEmail(email: string): (ok: bool)
    ensures ok <==> EmailShape(email)
  {
    match Query.IndexFrom(email, IsAt, 0)
    case None =>
      assert !EmailShape(email);
      false
    case Some(i) =>
      var ok := 0 < i && IsRun(email[..i]) && DomainOk(email[i + 1..]);
      EmailShapeAt(email, i);
      ok
  }

  /** With the first '@' at `i`, the regular expression matches exactly when
      a run precedes it and a well-formed domain follows it. */
  lemma EmailShapeAt(s: string, i: nat)
    requires i < |s| && s[i] == '@' && forall j :: 0 <= j < i ==> s[j] != '@'
    ensures EmailShape(s) <==> 0 < i && IsRun(s[..i]) && DomainOk(s[i + 1..])
  {
    if 0 < i && IsRun(s[..i]) && DomainOk(s[i + 1..]) {
      DomainGivesShape(s, i);
    }
    if EmailShape(s) {
      ShapeGivesDomain(s, i);
    }
  }

  lemma DomainGivesShape(s: string, i: nat)
    requires 0 < i < |s| && s[i] == '@' && IsRun(s[..i]) && DomainOk(s[i + 1..])
    ensures EmailShape(s)
  {
    var d := s[i + 1..];
    var k :| 0 < k < |d| - 1 && d[k] == '.';
    var j := i + 1 + k;
    assert s[i + 1..j] == d[..k];
    assert s[j + 1..] == d[k + 1..];
    assert IsRun(d[..k]);
    assert IsRun(d[k + 1..]);
    assert s[j] == '.';
  }

  /** Two '@' positions with no '@' before the first and none in the run before the second coincide. */
  lemma FirstAtIsUnique(s: string, i: nat, i': nat)
    requires i < |s| && i' < |s| && s[i] == '@' && s[i'] == '@'
    requires forall j :: 0 <= j < i ==> s[j] != '@'
    requires IsRun(s[..i'])
    ensures i == i'
  {
  }

  lemma ShapeGivesDomain(s: string, i: nat)
    requires i < |s| && s[i] == '@' && forall j :: 0 <= j < i ==> s[j] != '@'
    requires EmailShape(s)
    ensures 0 < i && IsRun(s[..i]) && DomainOk(s[i + 1..])
  {
    var i', j :| 0 < i' < j < |s| - 1 && s[i'] == '@' && s[j] == '.'
                 && IsRun(s[..i']) && IsRun(s[i' + 1..j]) && IsRun(s[j + 1..]);
    FirstAtIsUnique(s, i, i');
    DomainFromParts(s, i, j);
  }

  lemma DomainFromParts(s: string, i: nat, j: nat)
    requires 0 < i < j < |s| - 1 && s[j] == '.' && IsRun(s[i + 1..j]) && IsRun(s[j + 1..])
    ensures DomainOk(s[i + 1..])
  {
    var d := s[i + 1..];
    assert d == s[i + 1..j] + [s[j]] + s[j + 1..];
    RunJoin(s[i + 1..j], s[j], s[j + 1..]);
    assert d[j - i - 1] == '.';
  }

  lemma RunJoin(b: string, x: char, c: string)
    requires IsRun(b) && RunChar(x) && IsRun(c)
    ensures IsRun(b + [x] + c)
  {
  }

  /** `validatePassword`: a missing or empty password is shorter than 6 characters. */
  function ValidatePassword(password: string): (r: Outcome)
    ensures r == Pass <==> |password| >= 6
    ensures r.Fail? ==> r.error == PasswordTooShort
  {
    if |password| < 6 then Fail(PasswordTooShort) else Pass
  }

  // ---- transactions ----

  /** The body of POST /api/transactions; "" stands for a missing string field. */
  datatype TransactionInput = TransactionInput(
    amount: Option<real>, kind: string, categoryId: Option<Id>, description: string, date: string)

  const MaxAmount: real := 999999.99

  /** The amount, written in decimal, has at most two digits after the point. */
  predicate HasAtMostTwoDecimals(a: real) {
    (a * 100.0).Floor as real == a * 100.0
  }

  /** Dated after the end of `today` (both `YYYY-MM-DD`). */
  predicate IsFuture(date: string, today: string) {
    !StrLe(date, today)
  }

  predicate AmountPositive(t: TransactionInput) { t.amount.Some? && t.amount.value > 0.0 }
  predicate AmountNotTooLarge(t: TransactionInput) { t.amount.None? || t.amount.value <= MaxAmount }
  predicate AmountInCents(t: TransactionInput) { t.amount.None? || HasAtMostTwoDecimals(t.amount.value) }

  /** `validateTransaction`: the first failing guard, in the order amount > 0,
      amount <= 999999.99, at most two decimals, type, category, description,
      date present, date not in the future, decides the error. */
  function ValidateTransaction(t: TransactionInput, today: string): (r: Outcome)
    ensures r == Fail(AmountNotPositive) <==> !AmountPositive(t)
    ensures r == Fail(AmountTooLarge) <==> AmountPositive(t) && !AmountNotTooLarge(t)
    ensures r == Fail(TooManyDecimals) <==> AmountPositive(t) && AmountNotTooLarge(t) && !AmountInCents(t)
    ensures r == Fail(InvalidTransactionType) <==>
              AmountPositive(t) && AmountNotTooLarge(t) && AmountInCents(t) && !IsKind(t.kind)
    ensures r == Fail(CategoryRequired) <==>
              AmountPositive(t) && AmountNotTooLarge(t) && AmountInCents(t) && IsKind(t.kind) && t.categoryId.None?
    ensures r == Fail(DescriptionRequired) <==>
              AmountPositive(t) && AmountNotTooLarge(t) && AmountInCents(t) && IsKind(t.kind) && t.categoryId.Some?
              && AllSpace(t.description)
    ensures r == Fail(DateRequired) <==>
              AmountPositive(t) && AmountNotTooLarge(t) && AmountInCents(t) && IsKind(t.kind) && t.categoryId.Some?
              && !AllSpace(t.description) && t.date == ""
    ensures r == Fail(FutureDate) <==>
              AmountPositive(t) && AmountNotTooLarge(t) && AmountInCents(t) && IsKind(t.kind) && t.categoryId.Some?
              && !AllSpace(t.description) && t.date != "" && IsFuture(t.date, today)
    ensures r == Pass <==>
              AmountPositive(t) && AmountNotTooLarge(t) && AmountInCents(t) && IsKind(t.kind) && t.categoryId.Some?
              && !AllSpace(t.description) && t.date != "" && !IsFuture(t.date, today)
  {
    TrimEmptyIffAllSpace(t.description);
    if t.amount.None? || t.amount.value <= 0.0 then Fail(AmountNotPositive)
    else if t.amount.value > MaxAmount then Fail(AmountTooLarge)
    else if !HasAtMostTwoDecimals(t.amount.value) then Fail(TooManyDecimals)
    else if !IsKind(t.kind) then Fail(InvalidTransactionType)
    else if t.categoryId.None? then Fail(CategoryRequired)
    else if Trim(t.description) == "" then Fail(DescriptionRequired)
    else if t.date == "" then Fail(DateRequired)
    else if IsFuture(t.date, today) then Fail(FutureDate)
    else Pass
  }

  /** Whole amounts and amounts in whole cents pass the decimal check. */
  lemma CentsHaveTwoDecimals(cents: int)
    ensures HasAtMostTwoDecimals(cents as real / 100.0)
    ensures HasAtMostTwoDecimals(cents as real)
  {
    assert (cents as real / 100.0) * 100.0 == cents as real;
    assert (cents as real) * 100.0 == (cents * 100) as real;
  }

  /** A well-formed payload dated `today`. */
  function SampleTransaction(amount: real, date: string): TransactionInput {
    TransactionInput(Some(amount), Income, Some(1), "Salary", date)
  }

  /** An amount of 1000000 is too large, and 10.999 has too many decimals. */
  lemma AmountExamples()
    ensures ValidateTransaction(SampleTransaction(1000000.0, "2024-05-10"), "2024-05-10") == Fail(AmountTooLarge)
    ensures ValidateTransaction(SampleTransaction(10.999, "2024-05-10"), "2024-05-10") == Fail(TooManyDecimals)
  {
    assert !HasAtMostTwoDecimals(10.999) by { assert 10.999 * 100.0 == 1099.9; }
  }

  /** A payload dated the day after `today` is in the future. */
  lemma TomorrowIsFuture()
    ensures ValidateTransaction(SampleTransaction(10.5, "2024-05-11"), "2024-05-10") == Fail(FutureDate)
  {
    TomorrowLaterThanToday();
    SampleIsWellFormed("2024-05-11");
  }

  lemma TomorrowLaterThanToday()
    ensures IsFuture("2024-05-11", "2024-05-10")
  {
    StrLeCommonPrefix("2024-05-1", "1", "0");
    assert "2024-05-1" + "1" == "2024-05-11" && "2024-05-1" + "0" == "2024-05-10";
  }

  /** The same payload dated `today` is accepted. */
  lemma TodayIsAccepted()
    ensures ValidateTransaction(SampleTransaction(10.5, "2024-05-10"), "2024-05-10") == Pass
  {
    SampleIsWellFormed("2024-05-10");
    StrLeReflexive("2024-05-10");
  }

  /** A description of white space only is reported as missing. */
  lemma BlankDescriptionIsMissing()
    ensures ValidateTransaction(SampleTransaction(10.5, "2024-05-10").(description := " \t"), "2024-05-10")
            == Fail(DescriptionRequired)
  {
    SampleIsWellFormed("2024-05-10");
    assert AllSpace(" \t");
  }

  /** The sample payload of 10.5 meets the amount and description checks, whatever its date. */
  lemma SampleIsWellFormed(date: string)
    ensures var t := SampleTransaction(10.5, date);
            AmountPositive(t) && AmountNotTooLarge(t) && AmountInCents(t) && !AllSpace(t.description)
  {
    assert 10.5 * 100.0 == 1050 as real;
    assert !IsSpace("Salary"[0]);
  }

  // ---- budgets ----

  predicate IsDigit(c: char) {
    '0' <= c <= '9'
  }

  /** The strings `/^\d{4}-\d{2}$/` accepts. */
  predicate IsMonthShape(m: string) {
    |m| == 7 && m[4] == '-' && forall i :: 0 <= i < 7 && i != 4 ==> IsDigit(m[i])
  }

  /** `validateBudget`: category, then a positive limit, then a month of shape `YYYY-MM`. */
  function ValidateBudget(categoryId: Option<Id>, limit: Option<real>, month: string): (r: Outcome)
    ensures r == Fail(CategoryRequired) <==> categoryId.None?
    ensures r == Fail(BudgetLimitNotPositive) <==> categoryId.Some? && (limit.None? || limit.value <= 0.0)
    ensures r == Fail(MonthRequired) <==> categoryId.Some? && limit.Some? && limit.value > 0.0 && month == ""
    ensures r == Fail(InvalidMonthFormat) <==>
              categoryId.Some? && limit.Some? && limit.value > 0.0 && month != "" && !IsMonthShape(month)
    ensures r == Pass <==> categoryId.Some? && limit.Some? && limit.value > 0.0 && IsMonthShape(month)
  {
    if categoryId.None? then Fail(CategoryRequired)
    else if limit.None? || limit.value <= 0.0 then Fail(BudgetLimitNotPositive)
    else if month == "" then Fail(MonthRequired)
    else if !IsMonthShape(month) then Fail(InvalidMonthFormat)
    else Pass
  }

  /** Only the shape of the month is checked: month 13 passes, a one-digit month does not. */
  lemma MonthShapeExamples()
    ensures ValidateBudget(Some(1), Some(100.0), "2024-13") == Pass
    ensures ValidateBudget(Some(1), Some(100.0), "2024-01") == Pass
    ensures ValidateBudget(Some(1), Some(100.0), "2024-1") == Fail(InvalidMonthFormat)
  {
  }

  // ---- categories ----

  const MaxNameLength: nat := 50

  /** `validateCategory`: a name that is not blank, at most 50 characters before
      trimming, and a type of income or expense. */
  function ValidateCategory(name: string, kind: string): (r: Outcome)
    ensures r == Fail(CategoryNameRequired) <==> AllSpace(name)
    ensures r == Fail(CategoryNameTooLong) <==> !AllSpace(name) && |name| > MaxNameLength
    ensures r == Fail(InvalidCategoryType) <==> !AllSpace(name) && |name| <= MaxNameLength && !IsKind(kind)
    ensures r == Pass <==> !AllSpace(name) && |name| <= MaxNameLength && IsKind(kind)
  {
    TrimEmptyIffAllSpace(name);
    if Trim(name) == "" then Fail(CategoryNameRequired)
    else if |name| > MaxNameLength then Fail(CategoryNameTooLong)
    else if !IsKind(kind) then Fail(InvalidCategoryType)
    else Pass
  }

  /** A 49-character name padded with two spaces is too long, although it trims to 49. */
  lemma UntrimmedLengthCounts()
    ensures var name := seq(49, _ => 'a') + "  ";
            |Trim(name)| == 49 && ValidateCategory(name, Expense) == Fail(CategoryNameTooLong)
  {
    var name := seq(49, _ => 'a') + "  ";
    assert !IsSpace(name[0]);
    assert TrimStart(name) == name;
    assert name[50] == ' ' && name[..50][49] == ' ' && name[..50][..49][48] == 'a';
    assert TrimEnd(name) == TrimEnd(name[..50]) == TrimEnd(name[..50][..49]) == name[..50][..49];
  }
}
