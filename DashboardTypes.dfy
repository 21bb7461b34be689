/**
 * The records of `src/types.py` and of the dictionaries `src/main.py`
 * builds. Python's `float` is modelled as `real`.
 */
module DashboardTypes {
  import opened Wrappers
  import Dicts

  /** `GCPBudgetInfo`. */
  datatype BudgetInfo = BudgetInfo(name: string, limit: real, actual: real, forecast: Option<real>)

  /** A `(label, amount)` pair of `service_costs` and `cost_by_service`. */
  type ServiceCost = (string, real)

  /** `GCPCostData`; the four period dates are the `isoformat()` strings or `"N/A"`. */
  datatype CostData = CostData(
    projectId: string,
    currentPeriodCost: real,
    previousPeriodCost: real,
    costByService: seq<ServiceCost>,
    budgets: seq<BudgetInfo>,
    currentPeriodName: string,
    previousPeriodName: string,
    timeRange: Option<int>,
    currentPeriodStart: string,
    currentPeriodEnd: string,
    previousPeriodStart: string,
    previousPeriodEnd: string)

  /**
   * `ProjectData` as `process_single_project` and `run_dashboard` build it:
   * one record type for success and failure alike.
   */
  datatype ProjectData = ProjectData(
    projectId: string,
    previousPeriodCost: real,
    currentPeriodCost: real,
    serviceCosts: seq<ServiceCost>,
    serviceCostsFormatted: seq<string>,
    budgetInfo: seq<string>,
    gkeSummary: Dicts.Dict,
    gkeSummaryFormatted: seq<string>,
    success: bool,
    error: Option<string>,
    currentPeriodName: string,
    previousPeriodName: string,
    currentPeriodStart: string,
    currentPeriodEnd: string,
    previousPeriodStart: string,
    previousPeriodEnd: string)
}
