/**
 * The stock reconciliation controller: a manual count of one item in one godown is compared with the
 * quantity the system holds, and the comparison is filed as a report.
 */
module StockReconciliationController {
  import opened Wrappers
  import opened StockModel
  import opened ReconciliationModel
  import opened Store

  /** The report for a count of `recorded` units against the stock `stock` of the system. */
  function Report(godown: string, item: string, recorded: int, verifiedBy: string, stock: Stock): (r: Reconciliation)
    ensures r.systemQuantity == stock.quantity
    ensures r.discrepancy <==> recorded != stock.quantity
    ensures r.godown == godown && r.rationItem == item && r.recordedQuantity == recorded && r.verifiedBy == verifiedBy
  {
    Reconciliation(godown, item, recorded, stock.quantity, recorded != stock.quantity, verifiedBy)
  }

  /**
   * reconcileStock, given the answer `found` of the godown-stock query: no stock means 404 and no
   * report; otherwise the report is filed as `newId`.
   */
  method ReconcileStock(stocks: Stocks, reports: Reconciliations, godown: string, item: string, recorded: int,
                        verifiedBy: string, found: Option<string>, newId: string)
    returns (r: Response<Reconciliation>)
    requires FindsGodownStock(stocks.docs, godown, item, found)
    requires newId !in reports.docs
    modifies reports
    ensures found.None? ==> r == Err(404) && reports.docs == old(reports.docs)
    ensures found.Some? ==>
              var report := Report(godown, item, recorded, verifiedBy, stocks.docs[found.value]);
              && reports.docs == old(reports.docs)[newId := report]
              && r == Ok(201, report)
  {
    if found.None? {
      return Err(404);
    }
    var systemQuantity := stocks.docs[found.value].quantity;
    var discrepancy := recorded != systemQuantity;
    var report := Reconciliation(godown, item, recorded, systemQuantity, discrepancy, verifiedBy);
    reports.docs := reports.docs[newId := report];
    r := Ok(201, report);
  }
}
