/**
 * `src/gcp_cost_processor.py`: the period dates and the budget loop of
 * `get_gcp_cost_data`, the cost proxy of `process_gcp_costs`, the text of
 * `format_gcp_budget_info` and `format_gke_summary`, and the cells
 * `export_to_csv` writes.
 */
module GcpCostProcessor {
  import opened Wrappers
  import opened Text
  import opened Calendar
  import opened Dicts
  import opened DashboardTypes
  import GcpClient

  // ---------------------------------------------------------------------
  // Reporting periods of get_gcp_cost_data
  // ---------------------------------------------------------------------

  /** The largest magnitude `timedelta(days=...)` accepts. */
  const MaxTimedeltaDays: int := 999999999

  /** The `OverflowError` text of a date leaving the representable range. */
  const DateOverflowMessage: string := "date value out of range"

  /** The `OverflowError` text of `timedelta(days=n)` with too large a magnitude. */
  function TimedeltaOverflowMessage(n: int): string {
    "days=" + IntToString(n) + "; must have magnitude <= 999999999"
  }

  /** The range of a C `int`, into which `timedelta` converts its day count before checking it. */
  const CIntMin: int := -2147483648
  const CIntMax: int := 2147483647

  /** The `OverflowError` text of a day count that does not fit in a C `int`. */
  const CIntOverflowMessage: string := "Python int too large to convert to C int"

  datatype Periods = Periods(
    currentName: string,
    previousName: string,
    currentStart: Date,
    currentEnd: Date,
    previousStart: Date,
    previousEnd: Date)

  predicate PeriodsValid(p: Periods) {
    Valid(p.currentStart) && Valid(p.currentEnd) && Valid(p.previousStart) && Valid(p.previousEnd)
  }

  /**
   * The three subtractions of the `if time_range:` branch: the current start,
   * the previous end and the previous start, or `None` as soon as one leaves
   * the calendar.
   */
  function RollingDays(today: Date, n: int): (r: Option<(Date, Date, Date)>)
    requires Valid(today)
    ensures r.Some? <==>
      InRange(Ordinal(today) - n) && InRange(Ordinal(today) - n - 1) && InRange(Ordinal(today) - 2 * n - 1)
    ensures r.Some? ==>
      && Valid(r.value.0) && Valid(r.value.1) && Valid(r.value.2)
      && Ordinal(r.value.0) == Ordinal(today) - n
      && Ordinal(r.value.1) == Ordinal(r.value.0) - 1
      && Ordinal(r.value.2) == Ordinal(r.value.1) - n
  {
    match SubtractDays(today, n)
    case None => None
    case Some(start) =>
      match SubtractDays(start, 1)
      case None => None
      case Some(previousEnd) =>
        match SubtractDays(previousEnd, n)
        case None => None
        case Some(previousStart) => Some((start, previousEnd, previousStart))
  }

  /** The `if time_range:` branch: the last `n` days up to today, and the `n + 1` days before them. */
  function RollingWindow(today: Date, n: int): (r: Outcome<Periods>)
    requires Valid(today)
    ensures !r.RaisedCredential?
    ensures r.Returned? ==> PeriodsValid(r.value) && r.value.currentEnd == today
    ensures r.RaisedOther? ==> r.message in {CIntOverflowMessage, TimedeltaOverflowMessage(n), DateOverflowMessage}
  {
    if n > CIntMax || n < CIntMin then RaisedOther(CIntOverflowMessage)
    else if n > MaxTimedeltaDays || n < -MaxTimedeltaDays then RaisedOther(TimedeltaOverflowMessage(n))
    else
      match RollingDays(today, n)
      case None => RaisedOther(DateOverflowMessage)
      case Some((start, previousEnd, previousStart)) =>
        Returned(Periods("Current " + IntToString(n) + " days", "Previous " + IntToString(n) + " days",
                         start, today, previousStart, previousEnd))
  }

  /** The `else` branch: the month so far, and the whole previous month. */
  function MonthWindow(today: Date): (r: Outcome<Periods>)
    requires Valid(today)
    ensures !r.RaisedCredential?
    ensures r.Returned? ==> PeriodsValid(r.value) && r.value.currentEnd == today
  {
    var start := FirstOfMonth(today);
    match SubtractDays(start, 1)
    case None => RaisedOther(DateOverflowMessage)
    case Some(previousEnd) =>
      Returned(Periods("Current month", "Last month", start, today, FirstOfMonth(previousEnd), previousEnd))
  }

  /**
   * The dates of the current and the previous period: a rolling window when
   * `time_range` is a non-zero `n`, the calendar month otherwise.
   */
  function ComputePeriods(today: Date, timeRange: Option<int>): (r: Outcome<Periods>)
    requires Valid(today)
    ensures !r.RaisedCredential?
    ensures r.Returned? ==> PeriodsValid(r.value) && r.value.currentEnd == today
  {
    if timeRange.Some? && timeRange.value != 0 then RollingWindow(today, timeRange.value) else MonthWindow(today)
  }

  ghost predicate InRange(ordinal: int) {
    1 <= ordinal <= MaxOrdinal
  }

  /**
   * A window too wide for `timedelta` fails: with the C `int` conversion's
   * message when the count does not fit in a C `int`, otherwise with
   * `timedelta`'s own range message.
   */
  lemma RollingTooWide(today: Date, n: int)
    requires Valid(today) && (n > MaxTimedeltaDays || n < -MaxTimedeltaDays)
    ensures CIntMin <= n <= CIntMax ==> ComputePeriods(today, Some(n)) == RaisedOther(TimedeltaOverflowMessage(n))
    ensures !(CIntMin <= n <= CIntMax) ==> ComputePeriods(today, Some(n)) == RaisedOther(CIntOverflowMessage)
  {
  }

  /**
   * A window `timedelta` accepts fails exactly when one of the three dates
   * it subtracts leaves the calendar.
   */
  lemma RollingOutcome(today: Date, n: int)
    requires Valid(today) && n != 0 && -MaxTimedeltaDays <= n <= MaxTimedeltaDays
    ensures ComputePeriods(today, Some(n)).Returned? <==>
      InRange(Ordinal(today) - n) && InRange(Ordinal(today) - n - 1) && InRange(Ordinal(today) - 2 * n - 1)
  {
    assert ComputePeriods(today, Some(n)) == RollingWindow(today, n);
  }

  /** Within `timedelta`'s range, every failure of a rolling window is the date overflow. */
  lemma RollingFailureMessage(today: Date, n: int)
    requires Valid(today) && n != 0 && -MaxTimedeltaDays <= n <= MaxTimedeltaDays
    ensures ComputePeriods(today, Some(n)).RaisedOther? ==> ComputePeriods(today, Some(n)).message == DateOverflowMessage
  {
    assert ComputePeriods(today, Some(n)) == RollingWindow(today, n);
  }

  /**
   * When it succeeds, the current period starts `n` days before today, the
   * previous one ends the day before and starts `n` days earlier still.
   */
  lemma RollingDates(today: Date, n: int)
    requires Valid(today) && n != 0 && ComputePeriods(today, Some(n)).Returned?
    ensures var p := ComputePeriods(today, Some(n)).value;
      && p.currentName == "Current " + IntToString(n) + " days"
      && p.previousName == "Previous " + IntToString(n) + " days"
      && p.currentEnd == today
      && Ordinal(p.currentStart) == Ordinal(today) - n
      && Ordinal(p.previousEnd) == Ordinal(p.currentStart) - 1
      && Ordinal(p.previousStart) == Ordinal(p.previousEnd) - n
  {
    assert ComputePeriods(today, Some(n)) == RollingWindow(today, n);
  }

  /**
   * For a positive window the periods come in order without gap or overlap,
   * and each covers `n + 1` calendar days counting both ends.
   */
  lemma RollingPeriodsOrdered(today: Date, n: int)
    requires Valid(today) && n > 0 && ComputePeriods(today, Some(n)).Returned?
    ensures var p := ComputePeriods(today, Some(n)).value;
      && Ordinal(p.previousStart) < Ordinal(p.previousEnd) < Ordinal(p.currentStart) < Ordinal(p.currentEnd)
      && Ordinal(p.currentStart) == Ordinal(p.previousEnd) + 1
      && Ordinal(p.currentEnd) - Ordinal(p.currentStart) + 1 == n + 1
      && Ordinal(p.previousEnd) - Ordinal(p.previousStart) + 1 == n + 1
  {
    RollingDates(today, n);
  }

  /**
   * Month mode (no `time_range`, or 0): the month so far, and the whole
   * previous calendar month; only a date in January of year 1 has no
   * previous month.
   */
  lemma MonthPeriods(today: Date, timeRange: Option<int>)
    requires Valid(today) && (timeRange == None || timeRange == Some(0))
    ensures var r := ComputePeriods(today, timeRange);
      && (r.Returned? <==> !(today.year == MinYear && today.month == 1))
      && (r.RaisedOther? ==> r.message == DateOverflowMessage)
      && (r.Returned? ==> MonthShaped(today, r.value))
  {
    assert ComputePeriods(today, timeRange) == MonthWindow(today);
    if today.year == MinYear && today.month == 1 {
      MonthWindowFirstMonth(today);
    } else {
      PreviousMonthEnd(today);
    }
  }

  /** January of year 1 has no previous month: the subtraction overflows. */
  lemma MonthWindowFirstMonth(today: Date)
    requires Valid(today) && today.year == MinYear && today.month == 1
    ensures MonthWindow(today) == RaisedOther(DateOverflowMessage)
  {
    var start := FirstOfMonth(today);
    assert start == FirstDate;
    DayBeforeFirst(start);
    assert SubtractDays(start, 1) == None;
  }

  /** Outside January of year 1 the day before the 1st closes the previous calendar month. */
  lemma PreviousMonthEnd(today: Date)
    requires Valid(today) && !(today.year == MinYear && today.month == 1)
    ensures MonthWindow(today).Returned? && MonthShaped(today, MonthWindow(today).value)
  {
    var start := FirstOfMonth(today);
    DayBeforeFirst(start);
    var previousEnd := PrevDay(start);
    assert previousEnd.Some?;
    assert MonthWindow(today) ==
      Returned(Periods("Current month", "Last month", start, today, FirstOfMonth(previousEnd.value), previousEnd.value));
    assert MonthShaped(today, MonthWindow(today).value);
  }

  /**
   * The periods of month mode: the month of `today` from its 1st, and the
   * whole calendar month before it.
   */
  predicate MonthShaped(today: Date, p: Periods) {
    && p.currentName == "Current month" && p.previousName == "Last month"
    && p.currentStart == Date(today.year, today.month, 1) && p.currentEnd == today
    && Valid(p.previousEnd)
    && p.previousStart == Date(p.previousEnd.year, p.previousEnd.month, 1)
    && p.previousEnd.day == DaysInMonth(p.previousEnd.year, p.previousEnd.month)
    && (today.month > 1 ==> p.previousEnd.year == today.year && p.previousEnd.month == today.month - 1)
    && (today.month == 1 ==> p.previousEnd.year == today.year - 1 && p.previousEnd.month == 12)
  }

  /**
   * In month mode the previous month ends the day before the current one
   * starts, and each period starts no later than it ends.
   */
  lemma MonthPeriodsOrdered(today: Date, timeRange: Option<int>)
    requires Valid(today) && (timeRange == None || timeRange == Some(0)) && ComputePeriods(today, timeRange).Returned?
    ensures var p := ComputePeriods(today, timeRange).value;
      && Ordinal(p.previousStart) <= Ordinal(p.previousEnd) < Ordinal(p.currentStart) <= Ordinal(p.currentEnd)
      && Ordinal(p.currentStart) == Ordinal(p.previousEnd) + 1
  {
    var start := FirstOfMonth(today);
    var previousEnd := SubtractDays(start, 1).value;
    assert ComputePeriods(today, timeRange) ==
      Returned(Periods("Current month", "Last month", start, today, FirstOfMonth(previousEnd), previousEnd));
  }

  /** A window of `-1` days: both periods run from tomorrow back to today. */
  lemma RollingMinusOne(today: Date)
    requires Valid(today) && ComputePeriods(today, Some(-1)).Returned?
    ensures var p := ComputePeriods(today, Some(-1)).value;
      p.previousStart == p.currentStart && p.previousEnd == p.currentEnd
  {
    assert ComputePeriods(today, Some(-1)) == RollingWindow(today, -1);
    LastDateOrdinal();
    OrdinalRange(today);
    assert today != LastDate;
    AddDayThenSubtract(today);
  }

  /**
   * The previous period prints the same `start to end` text as the current
   * one exactly when `time_range` is `-1`; every other window, and month
   * mode, ends the previous period before today.
   */
  lemma PeriodTextsCollide(today: Date, timeRange: Option<int>)
    requires Valid(today) && ComputePeriods(today, timeRange).Returned?
    ensures var p := ComputePeriods(today, timeRange).value;
      IsoFormat(p.previousStart) + " to " + IsoFormat(p.previousEnd) == IsoFormat(p.currentStart) + " to " + IsoFormat(p.currentEnd)
      <==> timeRange == Some(-1)
  {
    if timeRange == Some(-1) {
      RollingMinusOne(today);
    } else {
      var p := ComputePeriods(today, timeRange).value;
      PreviousEndDiffers(today, timeRange);
      IsoRangeInjective(p.previousStart, p.previousEnd, p.currentStart, p.currentEnd);
    }
  }

  /** Any window but `-1` days, and month mode, ends the previous period on a day other than today. */
  lemma PreviousEndDiffers(today: Date, timeRange: Option<int>)
    requires Valid(today) && ComputePeriods(today, timeRange).Returned? && timeRange != Some(-1)
    ensures var p := ComputePeriods(today, timeRange).value;
      p.previousEnd != p.currentEnd
  {
    if timeRange.Some? && timeRange.value != 0 {
      RollingDates(today, timeRange.value);
    } else {
      MonthPeriodsOrdered(today, timeRange);
    }
  }

  // ---------------------------------------------------------------------
  // The budget loop of get_gcp_cost_data
  // ---------------------------------------------------------------------

  /**
   * What the loop reads from one budget. Each amount is `Some` when the
   * message holding it is set, carrying its `_money_to_float` value, and
   * `None` when it is unset.
   */
  datatype BudgetDescriptor = BudgetDescriptor(
    displayName: string,
    resourceName: string,
    specifiedAmount: Option<real>,
    lastPeriodAmount: Option<real>,
    lastPeriodSpend: Option<real>,
    forecastedSpend: Option<real>)

  /** The exception that ended the iteration over `list_budgets`. */
  datatype ListingFailure = ListPermissionDenied | ListCredentialError | ListOtherError(message: string)

  /**
   * The response of `list_budgets` for the billing account: the budgets the
   * loop processed, and the exception that ended it early, if any.
   */
  datatype BudgetListing = BudgetListing(budgets: seq<BudgetDescriptor>, failure: Option<ListingFailure>)

  const LastPeriodSuffix: string := " (based on last period)"

  /** `_money_to_float` of an amount that may be missing. */
  function AmountOrZero(amount: Option<real>): real {
    if amount.Some? then amount.value else 0.0
  }

  /** `budget.display_name or budget.name.split('/')[-1]`. */
  function BudgetName(b: BudgetDescriptor): (name: string)
    ensures b.displayName != "" ==> name == b.displayName
    ensures b.displayName == "" ==>
      |name| <= |b.resourceName| && '/' !in name && name == b.resourceName[|b.resourceName| - |name|..]
  {
    if b.displayName != "" then b.displayName else LastSegment(b.resourceName, '/')
  }

  /**
   * One `GCPBudgetInfo`: a specified amount is the limit; failing that a
   * last-period amount is, and the name says so; failing both the limit is
   * 0. The forecast is kept only when positive.
   */
  function ToBudgetInfo(b: BudgetDescriptor): (info: BudgetInfo)
    ensures b.specifiedAmount.Some? ==> info.limit == b.specifiedAmount.value && info.name == BudgetName(b)
    ensures b.specifiedAmount.None? && b.lastPeriodAmount.Some? ==>
      info.limit == b.lastPeriodAmount.value && info.name == BudgetName(b) + LastPeriodSuffix
    ensures b.specifiedAmount.None? && b.lastPeriodAmount.None? ==> info.limit == 0.0 && info.name == BudgetName(b)
    ensures info.actual == AmountOrZero(b.lastPeriodSpend)
    ensures info.forecast.Some? <==> AmountOrZero(b.forecastedSpend) > 0.0
    ensures info.forecast.Some? ==> info.forecast.value == AmountOrZero(b.forecastedSpend)
  {
    var name := BudgetName(b);
    var (limit, shownName) :=
      if b.specifiedAmount.Some? then (b.specifiedAmount.value, name)
      else if b.lastPeriodAmount.Some? then (b.lastPeriodAmount.value, name + LastPeriodSuffix)
      else (0.0, name);
    var forecast := AmountOrZero(b.forecastedSpend);
    BudgetInfo(shownName, limit, AmountOrZero(b.lastPeriodSpend), if forecast > 0.0 then Some(forecast) else None)
  }

  /** `budgets_data`: one entry per processed budget, in listing order. */
  function BudgetInfos(bs: seq<BudgetDescriptor>): (r: seq<BudgetInfo>)
    ensures |r| == |bs| && forall i :: 0 <= i < |bs| ==> r[i] == ToBudgetInfo(bs[i])
  {
    seq(|bs|, i requires 0 <= i < |bs| => ToBudgetInfo(bs[i]))
  }

  /** The proxy for the current period's cost: the first budget's actual spend, or 0. */
  function CostProxy(infos: seq<BudgetInfo>): real {
    if infos == [] then 0.0 else infos[0].actual
  }

  /**
   * What `get_gcp_cost_data` returns or raises: building the Budget Service
   * client comes first and lies outside the `try`, so any exception it raises
   * escapes, even before the periods are computed.
   */
  function CostDataOf(projectId: string, timeRange: Option<int>, today: Date,
                      budgetsClient: GcpClient.ClientResponse, listing: BudgetListing): Outcome<CostData>
    requires Valid(today)
  {
    match budgetsClient
    case ClientCredentialError => RaisedCredential
    case ClientOtherError(message) => RaisedOther(message)
    case ClientReady =>
      match ComputePeriods(today, timeRange)
      case RaisedOther(message) => RaisedOther(message)
      case RaisedCredential => RaisedCredential
      case Returned(p) =>
        if listing.failure == Some(ListCredentialError) then RaisedCredential
        else
          var infos := BudgetInfos(listing.budgets);
          Returned(CostData(projectId, CostProxy(infos), 0.0, [], infos, p.currentName, p.previousName, timeRange,
                            IsoFormat(p.currentStart), IsoFormat(p.currentEnd),
                            IsoFormat(p.previousStart), IsoFormat(p.previousEnd)))
  }

  /** The loop of `get_gcp_cost_data`: every budget in order, the first one's actual spend kept by the `first_budget` flag. */
  method ReadBudgets(bs: seq<BudgetDescriptor>) returns (budgetsData: seq<BudgetInfo>, currentCost: real)
    ensures budgetsData == BudgetInfos(bs)
    ensures currentCost == CostProxy(budgetsData)
  {
    budgetsData := [];
    currentCost := 0.0;
    var firstBudget := true;
    for i := 0 to |bs|
      invariant budgetsData == BudgetInfos(bs[..i])
      invariant firstBudget <==> i == 0
      invariant currentCost == CostProxy(budgetsData)
    {
      var info := ToBudgetInfo(bs[i]);
      BudgetInfosStep(bs, i);
      budgetsData := budgetsData + [info];
      if firstBudget {
        currentCost := info.actual;
        firstBudget := false;
      }
    }
    assert bs[..|bs|] == bs;
  }

  lemma BudgetInfosStep(bs: seq<BudgetDescriptor>, i: int)
    requires 0 <= i < |bs|
    ensures BudgetInfos(bs[..i + 1]) == BudgetInfos(bs[..i]) + [ToBudgetInfo(bs[i])]
  {
    var prefix := bs[..i + 1];
    assert prefix[..i] == bs[..i];
    assert forall j :: 0 <= j < i ==> prefix[j] == bs[j];
  }

  /** `get_gcp_cost_data`: the client, then the periods, then the budgets of the billing account. */
  method GetGcpCostData(projectId: string, timeRange: Option<int>, today: Date,
                        budgetsClient: GcpClient.ClientResponse, listing: BudgetListing)
    returns (r: Outcome<CostData>)
    requires Valid(today)
    ensures r == CostDataOf(projectId, timeRange, today, budgetsClient, listing)
  {
    match budgetsClient {
      case ClientCredentialError => return RaisedCredential;
      case ClientOtherError(message) => return RaisedOther(message);
      case ClientReady =>
    }
    var periods := ComputePeriods(today, timeRange);
    if !periods.Returned? {
      return if periods.RaisedOther? then RaisedOther(periods.message) else RaisedCredential;
    }
    var p := periods.value;
    var budgetsData, currentCost := ReadBudgets(listing.budgets);
    if listing.failure == Some(ListCredentialError) {
      return RaisedCredential;
    }
    return Returned(CostData(projectId, currentCost, 0.0, [], budgetsData, p.currentName, p.previousName, timeRange,
                             IsoFormat(p.currentStart), IsoFormat(p.currentEnd),
                             IsoFormat(p.previousStart), IsoFormat(p.previousEnd)));
  }

  /**
   * The function's promise: a failure to build the client escapes as it is;
   * otherwise it fails only on a date overflow or a credential error while
   * listing; a permission or other listing error keeps the budgets read so
   * far; the cost proxy is the first budget's actual spend; the previous cost
   * is 0 and there is no service breakdown.
   */
  lemma CostDataProperties(projectId: string, timeRange: Option<int>, today: Date,
                           budgetsClient: GcpClient.ClientResponse, listing: BudgetListing)
    requires Valid(today)
    ensures var r := CostDataOf(projectId, timeRange, today, budgetsClient, listing);
      var periods := ComputePeriods(today, timeRange);
      && (r.RaisedOther? <==> budgetsClient.ClientOtherError? || (budgetsClient.ClientReady? && periods.RaisedOther?))
      && (budgetsClient.ClientOtherError? ==> r == RaisedOther(budgetsClient.message))
      && (budgetsClient.ClientReady? && periods.RaisedOther? ==> r == RaisedOther(periods.message))
      && (r.RaisedCredential? <==>
            budgetsClient.ClientCredentialError? ||
            (budgetsClient.ClientReady? && periods.Returned? && listing.failure == Some(ListCredentialError)))
      && (r.Returned? ==>
            var c := r.value;
            var p := periods.value;
            && budgetsClient.ClientReady? && periods.Returned?
            && c.projectId == projectId && c.timeRange == timeRange
            && |c.budgets| == |listing.budgets|
            && (forall i :: 0 <= i < |c.budgets| ==> c.budgets[i] == ToBudgetInfo(listing.budgets[i]))
            && c.currentPeriodCost == (if listing.budgets == [] then 0.0 else AmountOrZero(listing.budgets[0].lastPeriodSpend))
            && c.previousPeriodCost == 0.0 && c.costByService == []
            && c.currentPeriodName == p.currentName && c.previousPeriodName == p.previousName
            && c.currentPeriodStart == IsoFormat(p.currentStart) && c.currentPeriodEnd == IsoFormat(today)
            && c.previousPeriodStart == IsoFormat(p.previousStart) && c.previousPeriodEnd == IsoFormat(p.previousEnd))
  {
  }

  /** The cost data's two date ranges print alike exactly for a window of `-1` days. */
  lemma CostDataDatesCollide(projectId: string, timeRange: Option<int>, today: Date,
                             budgetsClient: GcpClient.ClientResponse, listing: BudgetListing)
    requires Valid(today) && CostDataOf(projectId, timeRange, today, budgetsClient, listing).Returned?
    ensures var c := CostDataOf(projectId, timeRange, today, budgetsClient, listing).value;
      c.previousPeriodStart + " to " + c.previousPeriodEnd == c.currentPeriodStart + " to " + c.currentPeriodEnd
      <==> timeRange == Some(-1)
  {
    CostDataProperties(projectId, timeRange, today, budgetsClient, listing);
    PeriodTextsCollide(today, timeRange);
  }

  // ---------------------------------------------------------------------
  // process_gcp_costs
  // ---------------------------------------------------------------------

  const TotalCostLabel: string := "Total Project Cost (Proxy)"
  const NoCostLine: string := "No significant cost detected (based on budget proxy)."
  const CostThreshold: real := 0.001

  /** The one display line and the `(label, amount)` pairs for the cost proxy. */
  function ProcessGcpCosts(costData: CostData): (r: (seq<string>, seq<ServiceCost>))
    ensures |r.0| == 1 && |r.1| <= 1
    ensures r.1 != [] <==> costData.currentPeriodCost > CostThreshold
    ensures r.1 != [] ==>
      r.1[0] == (TotalCostLabel, costData.currentPeriodCost) && r.0[0] == TotalCostLabel + ": " + Dollars(costData.currentPeriodCost)
    ensures r.1 == [] ==> r.0[0] == NoCostLine
  {
    var total := costData.currentPeriodCost;
    if total > CostThreshold then ([TotalCostLabel + ": " + Dollars(total)], [(TotalCostLabel, total)])
    else ([NoCostLine], [])
  }

  // ---------------------------------------------------------------------
  // format_gcp_budget_info
  // ---------------------------------------------------------------------

  const NoBudgetsLine: string := "No budgets found or accessible."
  const LimitUnknownText: string := "N/A (e.g., based on last period)"

  /** The limit as money when positive, otherwise the not-available note. */
  function LimitText(limit: real): (s: string)
    ensures s == LimitUnknownText <==> limit <= 0.0
  {
    if limit > 0.0 then Dollars(limit) else LimitUnknownText
  }

  /** The lines of one budget: name, limit, actual and, when present, forecast. */
  function BudgetBlock(b: BudgetInfo): (lines: seq<string>)
    ensures |lines| == if b.forecast.Some? then 4 else 3
    ensures lines[0] == "[bold]" + b.name + "[/]"
  {
    ["[bold]" + b.name + "[/]", "  Limit: " + LimitText(b.limit), "  Actual: " + Dollars(b.actual)]
      + (if b.forecast.Some? then ["  Forecast: " + Dollars(b.forecast.value)] else [])
  }

  /** No line of a budget's block is blank: each starts with its markup or its indentation. */
  lemma BudgetBlockNoBlank(b: BudgetInfo)
    ensures "" !in BudgetBlock(b)
  {
    var lines := BudgetBlock(b);
    assert lines[0][0] == '[' && lines[1][0] == ' ' && lines[2][0] == ' ';
    assert |lines| == 4 ==> lines[3][0] == ' ';
  }

  /** The lines before the final `pop()`: each block followed by a blank line. */
  function BlocksWithSeparators(bs: seq<BudgetInfo>): (lines: seq<string>)
    ensures |lines| >= 4 * |bs|
  {
    if bs == [] then [] else BlocksWithSeparators(bs[..|bs| - 1]) + BudgetBlock(bs[|bs| - 1]) + [""]
  }

  /** What `format_gcp_budget_info` returns. */
  function BudgetInfoLines(bs: seq<BudgetInfo>): seq<string>
  {
    if bs == [] then [NoBudgetsLine]
    else
      var lines := BlocksWithSeparators(bs);
      lines[..|lines| - 1]
  }

  method FormatGcpBudgetInfo(budgets: seq<BudgetInfo>) returns (lines: seq<string>)
    ensures lines == BudgetInfoLines(budgets)
  {
    if budgets == [] {
      return [NoBudgetsLine];
    }
    lines := [];
    for i := 0 to |budgets|
      invariant lines == BlocksWithSeparators(budgets[..i])
    {
      BlocksStep(budgets, i);
      lines := AppendBudget(lines, budgets[i]);
    }
    assert budgets[..|budgets|] == budgets;
    if lines != [] {
      lines := lines[..|lines| - 1];
    }
  }

  /** One iteration of the loop: the budget's lines, then a blank one. */
  method AppendBudget(lines0: seq<string>, b: BudgetInfo) returns (lines: seq<string>)
    ensures lines == lines0 + BudgetBlock(b) + [""]
  {
    lines := lines0;
    var limitStr := LimitText(b.limit);
    lines := lines + ["[bold]" + b.name + "[/]"];
    lines := lines + ["  Limit: " + limitStr];
    lines := lines + ["  Actual: " + Dollars(b.actual)];
    ghost var block := BudgetBlock(b);
    assert lines == lines0 + block[..3];
    if b.forecast.Some? {
      lines := lines + ["  Forecast: " + Dollars(b.forecast.value)];
    }
    assert lines == lines0 + block;
    lines := lines + [""];
  }

  lemma BlocksStep(bs: seq<BudgetInfo>, i: int)
    requires 0 <= i < |bs|
    ensures BlocksWithSeparators(bs[..i + 1]) == BlocksWithSeparators(bs[..i]) + BudgetBlock(bs[i]) + [""]
  {
    assert bs[..i + 1][..i] == bs[..i];
  }

  /** The blocks joined with one blank line between neighbours: the intended layout. */
  function JoinedBlocks(bs: seq<BudgetInfo>): seq<string>
    requires bs != []
  {
    if |bs| == 1 then BudgetBlock(bs[0]) else JoinedBlocks(bs[..|bs| - 1]) + [""] + BudgetBlock(bs[|bs| - 1])
  }

  lemma {:induction false} SeparatorsAreJoinedBlocks(bs: seq<BudgetInfo>)
    requires bs != []
    ensures BlocksWithSeparators(bs) == JoinedBlocks(bs) + [""]
    decreases |bs|
  {
    var init, block := bs[..|bs| - 1], BudgetBlock(bs[|bs| - 1]);
    if |bs| > 1 {
      SeparatorsAreJoinedBlocks(init);
      calc {
        BlocksWithSeparators(bs);
        BlocksWithSeparators(init) + block + [""];
        JoinedBlocks(init) + [""] + block + [""];
        JoinedBlocks(bs) + [""];
      }
    } else {
      assert bs == [bs[0]];
      SeparatorsSingle(bs[0]);
    }
  }

  /** A single budget: its block and one blank line. */
  lemma SeparatorsSingle(b: BudgetInfo)
    ensures BlocksWithSeparators([b]) == BudgetBlock(b) + [""]
  {
    assert [b][..0] == [];
    assert BlocksWithSeparators([b]) == [] + BudgetBlock(b) + [""];
  }

  lemma {:induction false} JoinedBlocksBlankCount(bs: seq<BudgetInfo>)
    requires bs != []
    ensures multiset(JoinedBlocks(bs))[""] == |bs| - 1
    ensures JoinedBlocks(bs)[|JoinedBlocks(bs)| - 1] != ""
    decreases |bs|
  {
    var block := BudgetBlock(bs[|bs| - 1]);
    BudgetBlockNoBlank(bs[|bs| - 1]);
    assert multiset(block)[""] == 0;
    if |bs| > 1 {
      JoinedBlocksBlankCount(bs[..|bs| - 1]);
    }
  }

  /**
   * The layout `format_gcp_budget_info` promises: the placeholder line when
   * there are no budgets; otherwise the blocks in order, separated by exactly
   * one blank line each, starting with the first budget's name and ending on
   * a non-blank line.
   */
  lemma BudgetInfoLayout(bs: seq<BudgetInfo>)
    ensures bs == [] ==> BudgetInfoLines(bs) == [NoBudgetsLine]
    ensures bs != [] ==>
      var lines := BudgetInfoLines(bs);
      && lines == JoinedBlocks(bs)
      && multiset(lines)[""] == |bs| - 1
      && lines[0] == "[bold]" + bs[0].name + "[/]"
      && lines[|lines| - 1] != ""
  {
    if bs != [] {
      SeparatorsAreJoinedBlocks(bs);
      JoinedBlocksBlankCount(bs);
      var lines := BlocksWithSeparators(bs);
      assert lines[..|lines| - 1] == JoinedBlocks(bs);
      JoinedBlocksStart(bs);
    }
  }

  lemma {:induction false} JoinedBlocksStart(bs: seq<BudgetInfo>)
    requires bs != []
    ensures JoinedBlocks(bs)[0] == "[bold]" + bs[0].name + "[/]"
    decreases |bs|
  {
    if |bs| > 1 {
      JoinedBlocksStart(bs[..|bs| - 1]);
    }
  }

  // ---------------------------------------------------------------------
  // format_gke_summary
  // ---------------------------------------------------------------------

  const ErrorFetchingLine: string := "[red]Error fetching GKE data[/]"
  const PermissionDeniedLine: string := "[red]Permission Denied for GKE[/]"
  const NoClustersLine: string := "No GKE clusters found or accessible."

  /** `status_colors.get(state, "white")`. */
  function StatusColor(state: string): string {
    if state == "RUNNING" then "bright_green"
    else if state == "PROVISIONING" then "bright_cyan"
    else if state == "RECONCILING" then "cyan"
    else if state == "STOPPING" then "bright_yellow"
    else if state == "DEGRADED" then "yellow"
    else if state == "ERROR" then "bright_red"
    else if state == "STATUS_UNSPECIFIED" then "dim"
    else if state == "PERMISSION_DENIED" then "red"
    else "white"
  }

  function StatusLine(e: Entry): string {
    "[" + StatusColor(e.0) + "]" + e.0 + ": " + IntToString(e.1) + "[/]"
  }

  function StatusLines(es: Dict): (lines: seq<string>)
    ensures |lines| == |es| && forall i :: 0 <= i < |es| ==> lines[i] == StatusLine(es[i])
  {
    seq(|es|, i requires 0 <= i < |es| => StatusLine(es[i]))
  }

  lemma StatusLinesAppend(es: Dict, e: Entry)
    ensures StatusLines(es + [e]) == StatusLines(es) + [StatusLine(e)]
  {
    assert forall i :: 0 <= i < |es| ==> (es + [e])[i] == es[i];
  }

  /** What `format_gke_summary` returns, branch by branch. */
  function GkeSummaryLines(d: Dict): seq<string>
  {
    var lines := StatusLines(PositiveEntries(SortEntries(d)));
    if lines != [] then lines else SummaryFallback(d)
  }

  method FormatGkeSummary(gkeData: Dict) returns (lines: seq<string>)
    ensures lines == GkeSummaryLines(gkeData)
  {
    var items := SortEntries(gkeData);
    lines := [];
    for i := 0 to |items|
      invariant lines == StatusLines(PositiveEntries(items[..i]))
    {
      PositiveEntriesStep(items, i);
      var (state, count) := items[i];
      if count > 0 {
        StatusLinesAppend(PositiveEntries(items[..i]), items[i]);
        lines := lines + ["[" + StatusColor(state) + "]" + state + ": " + IntToString(count) + "[/]"];
      } else {
        assert PositiveEntries(items[..i]) + [] == PositiveEntries(items[..i]);
      }
    }
    assert items[..|items|] == items;
    if lines == [] {
      lines := SummaryFallback(gkeData);
    }
  }

  /** The line shown when no state has a positive count. */
  function SummaryFallback(d: Dict): seq<string> {
    if Get(d, "ERROR") > 0 then [ErrorFetchingLine]
    else if Get(d, "PERMISSION_DENIED") > 0 then [PermissionDeniedLine]
    else [NoClustersLine]
  }

  lemma SortedPrefix(s: Dict, n: int)
    requires Sorted(s) && 0 <= n <= |s|
    ensures Sorted(s[..n])
  {
    assert forall i :: 0 <= i < n ==> s[..n][i] == s[i];
  }

  /** An entry no smaller than any of a sorted sequence's may be appended to it. */
  lemma SortedAppend(p: Dict, e: Entry)
    requires Sorted(p) && forall i :: 0 <= i < |p| ==> !EntryLess(e, p[i])
    ensures Sorted(p + [e])
  {
    var r := p + [e];
    assert forall i :: 0 <= i < |p| ==> r[i] == p[i];
  }

  /** The last entry of a sorted sequence is no smaller than any entry taken from before it. */
  lemma LastNotBelow(s: Dict, p: Dict)
    requires Sorted(s) && |s| > 0
    requires forall e :: e in p ==> e in s[..|s| - 1]
    ensures forall i :: 0 <= i < |p| ==> !EntryLess(s[|s| - 1], p[i])
  {
    forall i | 0 <= i < |p| ensures !EntryLess(s[|s| - 1], p[i]) {
      assert p[i] in p;
      var j :| 0 <= j < |s| - 1 && s[..|s| - 1][j] == p[i];
      assert s[j] == p[i];
    }
  }

  lemma {:induction false} PositiveEntriesSorted(s: Dict)
    requires Sorted(s)
    ensures Sorted(PositiveEntries(s))
    decreases |s|
  {
    if s != [] {
      var prefix := s[..|s| - 1];
      SortedPrefix(s, |s| - 1);
      PositiveEntriesSorted(prefix);
      if s[|s| - 1].1 > 0 {
        SortedKeepLast(s);
      } else {
        assert PositiveEntries(s) == PositiveEntries(prefix) + [] == PositiveEntries(prefix);
      }
    }
  }

  /** Keeping the last entry of a sorted sequence after its filtered prefix leaves it sorted. */
  lemma SortedKeepLast(s: Dict)
    requires Sorted(s) && |s| > 0 && s[|s| - 1].1 > 0
    requires Sorted(PositiveEntries(s[..|s| - 1]))
    ensures Sorted(PositiveEntries(s))
  {
    var p, last := PositiveEntries(s[..|s| - 1]), s[|s| - 1];
    assert PositiveEntries(s) == p + [last];
    LastNotBelow(s, p);
    SortedAppend(p, last);
  }

  /** A positive count in the tally is one of the entries the summary lists. */
  lemma PositiveCountShown(d: Dict, k: string)
    ensures Get(d, k) > 0 ==> (k, Get(d, k)) in PositiveEntries(SortEntries(d))
  {
    if Get(d, k) > 0 {
      GetMember(d, k);
      var e := (k, Get(d, k));
      assert e in multiset(d);
      assert e in multiset(SortEntries(d));
    }
  }

  /**
   * The summary lists the positive counts in ascending state order, one
   * line each, and falls back to the no-clusters line when there is none:
   * the error and permission-denied lines can never be produced, since a
   * positive ERROR or PERMISSION_DENIED count is itself listed.
   */
  lemma GkeSummaryShown(d: Dict)
    ensures var shown := PositiveEntries(SortEntries(d));
      && GkeSummaryLines(d) == (if shown == [] then [NoClustersLine] else StatusLines(shown))
      && (forall e :: e in shown <==> e in d && e.1 > 0)
      && (forall e :: multiset(shown)[e] == if e.1 > 0 then multiset(d)[e] else 0)
      && Sorted(shown)
      && (DistinctKeys(d) ==> forall i, j :: 0 <= i < j < |shown| ==> StrLess(shown[i].0, shown[j].0))
  {
    var sorted := SortEntries(d);
    var shown := PositiveEntries(sorted);
    forall e ensures e in sorted <==> e in d {
      assert e in sorted <==> e in multiset(sorted);
      assert e in d <==> e in multiset(d);
    }
    PositiveEntriesCount(sorted);
    SortEntriesSorted(d);
    PositiveEntriesSorted(sorted);
    PositiveCountShown(d, "ERROR");
    PositiveCountShown(d, "PERMISSION_DENIED");
    if DistinctKeys(d) {
      ShownStrictlyAscending(d);
    }
  }

  /** With distinct states in the tally, the listed states strictly ascend: one line per state. */
  lemma ShownStrictlyAscending(d: Dict)
    requires DistinctKeys(d)
    ensures var shown := PositiveEntries(SortEntries(d));
      forall i, j :: 0 <= i < j < |shown| ==> StrLess(shown[i].0, shown[j].0)
  {
    var sorted := SortEntries(d);
    var shown := PositiveEntries(sorted);
    PositiveEntriesCount(sorted);
    assert multiset(shown) <= multiset(d) by {
      forall e ensures multiset(shown)[e] <= multiset(d)[e] {
      }
    }
    DistinctKeysSubMultiset(d, shown);
    SortEntriesSorted(d);
    PositiveEntriesSorted(sorted);
    forall i, j | 0 <= i < j < |shown| ensures StrLess(shown[i].0, shown[j].0) {
      SortedKeysAscend(shown, i, j);
    }
  }

  // ---------------------------------------------------------------------
  // export_to_csv
  // ---------------------------------------------------------------------

  const ProjectIdField: string := "GCP Project ID"
  const TotalCostField: string := "Total Project Cost"
  const BudgetStatusField: string := "Budget Status"
  const ClusterStatusField: string := "GKE Cluster Status"

  function PeriodHeader(dates: string): string {
    "Cost for period\n(" + dates + ")"
  }

  /** The header row. */
  function CsvFieldnames(previousDates: string, currentDates: string): (fields: seq<string>)
    ensures |fields| == 6
  {
    [ProjectIdField, PeriodHeader(previousDates), PeriodHeader(currentDates), TotalCostField, BudgetStatusField, ClusterStatusField]
  }

  /** The budget column: the budget lines joined by newlines, "No budgets" when that is empty. */
  function BudgetCell(row: ProjectData): (cell: string)
    ensures cell != ""
    ensures row.budgetInfo == [] || row.budgetInfo == [""] ==> cell == "No budgets"
    ensures Join("\n", row.budgetInfo) != "" ==> cell == Join("\n", row.budgetInfo)
  {
    var joined := if row.budgetInfo != [] then Join("\n", row.budgetInfo) else "No budgets";
    JoinEmpty("\n", row.budgetInfo);
    if joined != "" then joined else "No budgets"
  }

  function PairText(e: Entry): (s: string)
    ensures s != ""
  {
    e.0 + ": " + IntToString(e.1)
  }

  function PairTexts(es: Dict): (r: seq<string>)
    ensures |r| == |es| && forall i :: 0 <= i < |es| ==> r[i] == PairText(es[i])
  {
    seq(|es|, i requires 0 <= i < |es| => PairText(es[i]))
  }

  /** The cluster column: the positive counts in dict order, or "No clusters". */
  function ClusterCell(row: ProjectData): (cell: string)
    ensures cell != ""
    ensures PositiveEntries(row.gkeSummary) == [] <==> cell == "No clusters"
    ensures PositiveEntries(row.gkeSummary) != [] ==> cell == Join("\n", PairTexts(PositiveEntries(row.gkeSummary)))
  {
    var texts := PairTexts(PositiveEntries(row.gkeSummary));
    var joined := Join("\n", texts);
    JoinEmpty("\n", texts);
    JoinedPairsNotSentinel(PositiveEntries(row.gkeSummary));
    if joined != "" then joined else "No clusters"
  }

  /** A join of `state: count` texts is never the bare sentinel. */
  lemma JoinedPairsNotSentinel(es: Dict)
    ensures Join("\n", PairTexts(es)) != "No clusters"
  {
    var texts := PairTexts(es);
    if |texts| == 1 {
      PairTextHasColon(es[0]);
      assert Join("\n", texts) == PairText(es[0]);
      assert ':' !in "No clusters";
    } else if |texts| > 1 {
      var joined := Join("\n", texts);
      assert joined == texts[0] + "\n" + Join("\n", texts[1..]);
      assert joined[|texts[0]|] == '\n';
      assert '\n' !in "No clusters";
    }
  }

  lemma PairTextHasColon(e: Entry)
    ensures ':' in PairText(e)
  {
    assert PairText(e)[|e.0|] == ':';
  }

  /**
   * The row as the columns mean it: project, previous cost, current cost,
   * total, budgets, clusters.
   */
  function CsvRowCells(row: ProjectData): (cells: seq<string>)
    ensures |cells| == 6
  {
    [row.projectId, Dollars(row.previousPeriodCost), Dollars(row.currentPeriodCost),
     Dollars(row.currentPeriodCost), BudgetCell(row), ClusterCell(row)]
  }

  /**
   * In the corrected row each period column shows its own period's cost,
   * and the total column repeats the current one.
   */
  lemma CsvRowColumns(row: ProjectData)
    ensures CsvRowCells(row)[1] == Dollars(row.previousPeriodCost)
    ensures CsvRowCells(row)[2] == Dollars(row.currentPeriodCost) == CsvRowCells(row)[3]
  {
  }

  /** A dict literal's `d[k]`: the value of the last pair written with key `k`. */
  function LiteralLookup(keys: seq<string>, values: seq<string>, k: string): (v: string)
    requires |keys| == |values| && k in keys
    decreases |keys|
  {
    var n := |keys|;
    if keys[n - 1] == k then values[n - 1]
    else
      assert k in keys[..n - 1] by {
        var i :| 0 <= i < n && keys[i] == k;
        assert keys[..n - 1][i] == k;
      }
      LiteralLookup(keys[..n - 1], values[..n - 1], k)
  }

  /** `DictWriter.writerow`: each field's value looked up in the row dict. */
  function WriteRow(fields: seq<string>, keys: seq<string>, values: seq<string>): (cells: seq<string>)
    requires |keys| == |values| && forall i :: 0 <= i < |fields| ==> fields[i] in keys
    ensures |cells| == |fields|
    ensures forall i :: 0 <= i < |fields| ==> cells[i] == LiteralLookup(keys, values, fields[i])
  {
    seq(|fields|, i requires 0 <= i < |fields| => LiteralLookup(keys, values, fields[i]))
  }

  /** The row as `export_to_csv` writes it: a dict literal keyed by the header texts. */
  function CsvRowAsWritten(row: ProjectData, previousDates: string, currentDates: string): (cells: seq<string>)
    ensures |cells| == 6
  {
    var fields := CsvFieldnames(previousDates, currentDates);
    WriteRow(fields, fields, CsvRowCells(row))
  }

  /** Looking up a key finds the value of its last occurrence. */
  lemma {:induction false} LookupLast(keys: seq<string>, values: seq<string>, j: int)
    requires |keys| == |values| && 0 <= j < |keys|
    requires forall m :: j < m < |keys| ==> keys[m] != keys[j]
    ensures LiteralLookup(keys, values, keys[j]) == values[j]
    decreases |keys|
  {
    var n := |keys|;
    if j < n - 1 {
      assert keys[..n - 1][j] == keys[j];
      LookupLast(keys[..n - 1], values[..n - 1], j);
    }
  }

  lemma PeriodHeaderInjective(a: string, b: string)
    requires PeriodHeader(a) == PeriodHeader(b)
    ensures a == b
  {
    var prefix := "Cost for period\n(";
    assert a == PeriodHeader(a)[|prefix|..|PeriodHeader(a)| - 1];
    assert b == PeriodHeader(b)[|prefix|..|PeriodHeader(b)| - 1];
  }

  /** The header texts other than the two period headers, told apart from those by their first letter. */
  lemma FixedFieldsDiffer(previousDates: string, currentDates: string)
    ensures var fields := CsvFieldnames(previousDates, currentDates);
      forall a, b :: 0 <= a < b < 6 && (a, b) != (1, 2) ==> fields[a] != fields[b]
  {
    var fields := CsvFieldnames(previousDates, currentDates);
    assert fields[1][0] == 'C' && fields[2][0] == 'C';
    assert fields[0][0] == 'G' && fields[3][0] == 'T' && fields[4][0] == 'B' && fields[5][0] == 'G';
    assert fields[0][1] == 'C' && fields[5][1] == 'K';
  }

  /** With two different date ranges all six header texts differ. */
  lemma FieldnamesDistinct(previousDates: string, currentDates: string)
    requires previousDates != currentDates
    ensures var fields := CsvFieldnames(previousDates, currentDates);
      forall a, b :: 0 <= a < b < 6 ==> fields[a] != fields[b]
  {
    if PeriodHeader(previousDates) == PeriodHeader(currentDates) {
      PeriodHeaderInjective(previousDates, currentDates);
    }
    FixedFieldsDiffer(previousDates, currentDates);
  }

  /** A dict literal with distinct keys gives back every value under its own key. */
  lemma WriteRowDistinct(fields: seq<string>, values: seq<string>)
    requires |fields| == |values|
    requires forall a, b :: 0 <= a < b < |fields| ==> fields[a] != fields[b]
    ensures WriteRow(fields, fields, values) == values
  {
    var cells := WriteRow(fields, fields, values);
    forall j | 0 <= j < |fields| ensures cells[j] == values[j] {
      LookupLast(fields, values, j);
    }
  }

  /**
   * Whatever the dates, the four fixed columns of the written row hold the
   * project id, the current cost as the total, the budget cell and the
   * cluster cell.
   */
  lemma CsvRowFixedColumns(row: ProjectData, previousDates: string, currentDates: string)
    ensures CsvRowAsWritten(row, previousDates, currentDates)[0] == row.projectId
    ensures CsvRowAsWritten(row, previousDates, currentDates)[3] == Dollars(row.currentPeriodCost)
    ensures CsvRowAsWritten(row, previousDates, currentDates)[4] == BudgetCell(row)
    ensures CsvRowAsWritten(row, previousDates, currentDates)[5] == ClusterCell(row)
  {
    var fields, values := CsvFieldnames(previousDates, currentDates), CsvRowCells(row);
    assert CsvRowAsWritten(row, previousDates, currentDates) == WriteRow(fields, fields, values);
    FixedFieldsDiffer(previousDates, currentDates);
    WriteRowFixed(fields, values);
  }

  /** In a six-key literal whose keys differ except perhaps keys 1 and 2, keys 0, 3, 4 and 5 give back their own values. */
  lemma WriteRowFixed(fields: seq<string>, values: seq<string>)
    requires |fields| == |values| == 6
    requires forall a, b :: 0 <= a < b < 6 && (a, b) != (1, 2) ==> fields[a] != fields[b]
    ensures var cells := WriteRow(fields, fields, values);
      cells[0] == values[0] && cells[3] == values[3] && cells[4] == values[4] && cells[5] == values[5]
  {
    LookupLast(fields, values, 0);
    LookupLast(fields, values, 3);
    LookupLast(fields, values, 4);
    LookupLast(fields, values, 5);
  }

  /** With two different date ranges the header texts differ and every cell lands in its column. */
  lemma CsvRowDistinctHeaders(row: ProjectData, previousDates: string, currentDates: string)
    requires previousDates != currentDates
    ensures CsvRowAsWritten(row, previousDates, currentDates) == CsvRowCells(row)
  {
    FieldnamesDistinct(previousDates, currentDates);
    WriteRowDistinct(CsvFieldnames(previousDates, currentDates), CsvRowCells(row));
  }

  /** When keys 1 and 2 of a six-key literal coincide and key 2 occurs nowhere later, both columns show value 2. */
  lemma WriteRowCollision(fields: seq<string>, values: seq<string>)
    requires |fields| == |values| == 6 && fields[1] == fields[2]
    requires fields[3] != fields[2] && fields[4] != fields[2] && fields[5] != fields[2]
    ensures WriteRow(fields, fields, values)[1] == values[2]
    ensures WriteRow(fields, fields, values)[2] == values[2]
  {
    LookupLast(fields, values, 2);
  }

  /**
   * With equal date ranges the two period headers are one key, the later
   * entry wins, and the previous-period column shows the current cost.
   */
  lemma CsvRowCollision(row: ProjectData, dates: string)
    ensures CsvRowAsWritten(row, dates, dates)[1] == Dollars(row.currentPeriodCost)
    ensures CsvRowAsWritten(row, dates, dates)[2] == Dollars(row.currentPeriodCost)
  {
    var fields, values := CsvFieldnames(dates, dates), CsvRowCells(row);
    assert fields[2][0] == 'C' && fields[3][0] == 'T' && fields[4][0] == 'B' && fields[5][0] == 'G';
    WriteRowCollision(fields, values);
    assert CsvRowAsWritten(row, dates, dates) == WriteRow(fields, fields, values);
    assert values[2] == Dollars(row.currentPeriodCost);
  }

  /** So whenever the two costs print differently, the written row is not the one the headers describe. */
  lemma CsvRowCollisionDiffers(row: ProjectData, dates: string)
    requires Dollars(row.previousPeriodCost) != Dollars(row.currentPeriodCost)
    ensures CsvRowAsWritten(row, dates, dates) != CsvRowCells(row)
  {
    CsvRowCollision(row, dates);
    assert CsvRowCells(row)[1] == Dollars(row.previousPeriodCost);
  }

  /** A concrete row that shows the collision: $12.50 of current spend printed as the previous period's cost. */
  lemma CsvRowCollisionExample(row: ProjectData)
    requires row.previousPeriodCost == 0.0 && row.currentPeriodCost == 12.5
    ensures CsvRowAsWritten(row, "N/A to N/A", "N/A to N/A")[1] == "$12.50"
    ensures CsvRowCells(row)[1] == "$0.00"
  {
    CsvRowCollision(row, "N/A to N/A");
    CsvRowColumns(row);
    DollarsTwelveFifty();
    DollarsZero();
  }

  /** The file `export_to_csv` writes: the header row, then each record's row as the dict literal fills it, in order. */
  function CsvTable(data: seq<ProjectData>, previousDates: string, currentDates: string): (table: seq<seq<string>>)
    ensures |table| == |data| + 1 && table[0] == CsvFieldnames(previousDates, currentDates)
    ensures forall i :: 0 <= i < |data| ==> table[i + 1] == CsvRowAsWritten(data[i], previousDates, currentDates)
  {
    var rows := seq(|data|, i requires 0 <= i < |data| => CsvRowAsWritten(data[i], previousDates, currentDates));
    var table := [CsvFieldnames(previousDates, currentDates)] + rows;
    assert forall i :: 0 <= i < |data| ==> table[i + 1] == rows[i];
    table
  }

  /** The file the headers describe: each record's costs under its own period. */
  function CorrectedCsvTable(data: seq<ProjectData>, previousDates: string, currentDates: string): (table: seq<seq<string>>)
    ensures |table| == |data| + 1 && table[0] == CsvFieldnames(previousDates, currentDates)
    ensures forall i :: 0 <= i < |data| ==> table[i + 1] == CsvRowCells(data[i])
  {
    var rows := seq(|data|, i requires 0 <= i < |data| => CsvRowCells(data[i]));
    var table := [CsvFieldnames(previousDates, currentDates)] + rows;
    assert forall i :: 0 <= i < |data| ==> table[i + 1] == rows[i];
    table
  }

  /** With two different date ranges the written file is the intended one. */
  lemma CsvTablesAgree(data: seq<ProjectData>, previousDates: string, currentDates: string)
    requires previousDates != currentDates
    ensures CsvTable(data, previousDates, currentDates) == CorrectedCsvTable(data, previousDates, currentDates)
  {
    var written, intended := CsvTable(data, previousDates, currentDates), CorrectedCsvTable(data, previousDates, currentDates);
    forall i | 0 <= i < |data| ensures CsvRowAsWritten(data[i], previousDates, currentDates) == CsvRowCells(data[i]) {
      CsvRowDistinctHeaders(data[i], previousDates, currentDates);
    }
    forall k | 1 <= k < |written| ensures written[k] == intended[k] {
      assert written[(k - 1) + 1] == intended[(k - 1) + 1];
    }
  }

  /** With equal date ranges every record's previous-period cell in the written file shows its current cost. */
  lemma CsvTableCollision(data: seq<ProjectData>, dates: string)
    ensures forall i :: 0 <= i < |data| ==>
      CsvTable(data, dates, dates)[i + 1][1] == Dollars(data[i].currentPeriodCost) &&
      CsvTable(data, dates, dates)[i + 1][2] == Dollars(data[i].currentPeriodCost)
  {
    forall i | 0 <= i < |data|
      ensures CsvTable(data, dates, dates)[i + 1][1] == Dollars(data[i].currentPeriodCost)
      ensures CsvTable(data, dates, dates)[i + 1][2] == Dollars(data[i].currentPeriodCost)
    {
      CsvRowCollision(data[i], dates);
    }
  }
}
