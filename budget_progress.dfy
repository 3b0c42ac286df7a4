/**
 * The budget progress card: percentage of the limit spent, what is left,
 * the status text and colours at the 80 % and 100 % thresholds, the bar value
 * and the Remaining/Overspent line. Currency formatting is not modelled; the
 * figures it would format are.
 */
module BudgetProgress {
  import opened Wrappers

  datatype Status = OnTrack | NearLimit | OverBudget {
    function Text(): string {
      match this
      case OnTrack => "On track"
      case NearLimit => "Near limit"
      case OverBudget => "Over budget"
    }

    /** The Tailwind colour shared by the bar and the status text. */
    function Hue(): string {
      match this
      case OnTrack => "green-600"
      case NearLimit => "yellow-600"
      case OverBudget => "red-600"
    }
  }

  /** The status the two thresholds assign to a percentage. */
  function StatusOf(percentage: real): (s: Status)
    ensures s == OverBudget <==> percentage >= 100.0
    ensures s == NearLimit <==> 80.0 <= percentage < 100.0
    ensures s == OnTrack <==> percentage < 80.0
  {
    if percentage >= 100.0 then OverBudget
    else if percentage >= 80.0 then NearLimit
    else OnTrack
  }

  /** `getStatusText`. */
  function GetStatusText(percentage: real): (r: string)
    ensures r == StatusOf(percentage).Text()
  {
    if percentage >= 100.0 then "Over budget"
    else if percentage >= 80.0 then "Near limit"
    else "On track"
  }

  /** `getProgressColor`: the bar's class, which always matches the status. */
  function GetProgressColor(percentage: real): (r: string)
    ensures r == "bg-" + StatusOf(percentage).Hue()
  {
    if percentage >= 100.0 then "bg-red-600"
    else if percentage >= 80.0 then "bg-yellow-600"
    else "bg-green-600"
  }

  /** The class of the status text, written inline with the same thresholds. */
  function StatusTextClass(percentage: real): (r: string)
    ensures r == "text-" + StatusOf(percentage).Hue()
  {
    if percentage >= 100.0 then "text-red-600"
    else if percentage >= 80.0 then "text-yellow-600"
    else "text-green-600"
  }

  /** What the card shows for one budget. */
  datatype Card = Card(
    spent: real, limit: real, percentage: real, remaining: real,
    statusText: string, statusClass: string,
    barValue: real, barClass: string,
    remainingLabel: string, remainingClass: string, shownAmount: real)

  /** `spent / limit * 100` for a positive limit: the comparison with a
      threshold `t` percent is a comparison of `spent` with `t / 100` of the limit. */
  lemma ThresholdAt(spent: real, limit: real, t: real)
    requires limit > 0.0
    ensures spent / limit * 100.0 * limit == spent * 100.0
    ensures spent / limit * 100.0 >= t <==> spent * 100.0 >= t * limit
  {
    var q := spent / limit;
    assert q * limit == spent;
    assert (q * 100.0 - t) * limit == spent * 100.0 - t * limit;
    if q * 100.0 < t { assert (q * 100.0 - t) * limit < 0.0; }
    if q * 100.0 >= t { assert (q * 100.0 - t) * limit >= 0.0; }
  }

  /** The two thresholds of the card: 100 % is the whole limit, 80 % is 0.8 of it. */
  lemma PercentageThresholds(spent: real, limit: real)
    requires limit > 0.0
    ensures spent / limit * 100.0 * limit == spent * 100.0
    ensures spent / limit * 100.0 >= 100.0 <==> spent >= limit
    ensures spent / limit * 100.0 >= 80.0 <==> spent >= 0.8 * limit
  {
    ThresholdAt(spent, limit, 100.0);
    ThresholdAt(spent, limit, 80.0);
  }

  /** `BudgetProgress({budget})`: a missing `spent` or `limit_amount` counts as 0. */
  function Render(spent: Option<real>, limit: Option<real>): (c: Card)
    ensures c.spent == spent.GetOr(0.0) && c.limit == limit.GetOr(0.0)
    ensures c.limit > 0.0 ==> c.percentage * c.limit == c.spent * 100.0
    ensures c.limit <= 0.0 ==> c.percentage == 0.0
    ensures c.remaining == c.limit - c.spent
    ensures c.limit > 0.0 ==> (c.statusText == "Over budget" <==> c.spent >= c.limit)
    ensures c.limit > 0.0 ==> (c.statusText == "Near limit" <==> 0.8 * c.limit <= c.spent < c.limit)
    ensures c.limit > 0.0 ==> (c.statusText == "On track" <==> c.spent < 0.8 * c.limit)
    ensures c.barClass == "bg-" + StatusOf(c.percentage).Hue() && c.statusClass == "text-" + StatusOf(c.percentage).Hue()
    ensures c.statusText == StatusOf(c.percentage).Text()
    ensures c.barValue == if c.percentage <= 100.0 then c.percentage else 100.0
    ensures c.remainingLabel == "Remaining" <==> c.remaining >= 0.0
    ensures c.remainingLabel == "Overspent" <==> c.remaining < 0.0
    ensures c.remainingClass == (if c.remaining >= 0.0 then "text-green-600" else "text-red-600")
    ensures c.shownAmount >= 0.0 && (c.shownAmount == c.remaining || c.shownAmount == -c.remaining)
  {
    var s := spent.GetOr(0.0);
    var l := limit.GetOr(0.0);
    var percentage := if l > 0.0 then s / l * 100.0 else 0.0;
    var remaining := l - s;
    var card := Card(s, l, percentage, remaining,
         GetStatusText(percentage), StatusTextClass(percentage),
         if percentage < 100.0 then percentage else 100.0, GetProgressColor(percentage),
         if remaining >= 0.0 then "Remaining" else "Overspent",
         if remaining >= 0.0 then "text-green-600" else "text-red-600",
         if remaining >= 0.0 then remaining else -remaining);
    if l > 0.0 then PercentageThresholds(s, l); card else card
  }

  /** Limit 100 with 80 spent is near the limit with 20 remaining; with 120 spent
      it is over budget, overspent by 20. */
  lemma CardExamples()
    ensures var c := Render(Some(80.0), Some(100.0));
            c.percentage == 80.0 && c.statusText == "Near limit" && c.remainingLabel == "Remaining"
            && c.shownAmount == 20.0
    ensures var c := Render(Some(120.0), Some(100.0));
            c.statusText == "Over budget" && c.remaining == -20.0 && c.remainingLabel == "Overspent"
            && c.shownAmount == 20.0 && c.barValue == 100.0
  {
  }

  /** Spending exactly the limit reads "Over budget" beside "Remaining" $0; with no
      limit, any spending reads "On track" beside "Overspent". */
  lemma BoundaryCards(x: real)
    requires x > 0.0
    ensures var c := Render(Some(x), Some(x));
            c.statusText == "Over budget" && c.remainingLabel == "Remaining" && c.shownAmount == 0.0
    ensures var c := Render(Some(x), None);
            c.statusText == "On track" && c.remainingLabel == "Overspent" && c.barValue == 0.0
  {
  }
}
