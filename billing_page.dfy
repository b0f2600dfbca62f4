/** The filter and statistics logic of the Billing page
    (src/components/pages/Billing.jsx), over a snapshot of the bills. */
module BillingPage {
  import opened Seqs
  import opened Text
  import opened BillingApi

  /** The status drop-down: "All" selects every bill. */
  function ByStatus(bills: seq<Bill>, status: string): (r: seq<Bill>)
    ensures status == "All" ==> r == bills
    ensures forall b :: b in r <==> b in bills && (status == "All" || b.status == status)
    ensures forall b :: multiset(r)[b] == if (status == "All" || b.status == status) then multiset(bills)[b] else 0
    ensures IsSubseq(r, bills)
  {
    if status == "All" then
      SubseqRefl(bills);
      bills
    else
      Filter(bills, (b: Bill) => b.status == status)
  }

  /** A bill matches the search box when its patient name or its invoice number
      contains the query, ignoring case. */
  predicate MatchesQuery(b: Bill, query: string) {
    ContainsIgnoreCase(b.patientName, query) || ContainsIgnoreCase(b.invoiceNumber, query)
  }

  /** The search box: a query that is blank after trimming filters nothing;
      otherwise the untrimmed query is matched. */
  function BySearch(bills: seq<Bill>, query: string): (r: seq<Bill>)
    ensures IsBlank(query) ==> r == bills
    ensures !IsBlank(query) ==> forall b :: b in r <==> b in bills && MatchesQuery(b, query)
    ensures !IsBlank(query) ==> forall b :: multiset(r)[b] == if MatchesQuery(b, query) then multiset(bills)[b] else 0
    ensures IsSubseq(r, bills)
  {
    TrimEmptyIffBlank(query);
    if Trim(query) == "" then
      SubseqRefl(bills);
      bills
    else
      Filter(bills, (b: Bill) => MatchesQuery(b, query))
  }

  /** The list shown: both filters, combined with AND; an order-preserving
      selection of the snapshot. */
  function FilterBills(bills: seq<Bill>, status: string, query: string): (r: seq<Bill>)
    ensures forall b :: b in r <==>
      && b in bills
      && (status == "All" || b.status == status)
      && (IsBlank(query) || MatchesQuery(b, query))
    ensures forall b ::
              multiset(r)[b] ==
                if (status == "All" || b.status == status) && (IsBlank(query) || MatchesQuery(b, query))
                then multiset(bills)[b] else 0
    ensures status == "All" && IsBlank(query) ==> r == bills
    ensures IsSubseq(r, bills)
  {
    var byStatus := ByStatus(bills, status);
    var bySearch := BySearch(byStatus, query);
    SubseqTrans(bySearch, byStatus, bills);
    bySearch
  }

  function StatusOf(b: Bill): string { b.status }

  /** The status options: "All", then every status that occurs, each once, in
      the order of first occurrence. */
  function StatusOptions(bills: seq<Bill>): (r: seq<string>)
    ensures |r| >= 1 && r[0] == "All"
    ensures forall s :: s in r[1..] <==> s in Map(bills, StatusOf)
    ensures NoDuplicates(r[1..])
    ensures forall i, j :: 1 <= i < j < |r| ==>
      FirstIndex(Map(bills, StatusOf), r[i]) < FirstIndex(Map(bills, StatusOf), r[j])
  {
    var statuses := Map(bills, StatusOf);
    DistinctFirstOccurrenceOrder(statuses);
    var r := ["All"] + Distinct(statuses);
    assert r[1..] == Distinct(statuses);
    r
  }

  /** The four statistic cards. The overdue card counts bills whose stored
      status is "Overdue". */
  datatype BillingStats = BillingStats(
    totalRevenue: int,
    totalCollected: int,
    totalOutstanding: int,
    overdueCount: nat)

  predicate StoredOverdue(b: Bill) { b.status == "Overdue" }

  function Stats(bills: seq<Bill>): (r: BillingStats)
    ensures r.totalRevenue == Sum(bills, Amount)
    ensures r.totalCollected == Sum(bills, Paid)
    ensures r.totalOutstanding == r.totalRevenue - r.totalCollected
    ensures r.totalOutstanding == Sum(bills, Due)
    ensures r.overdueCount == Count(bills, StoredOverdue) <= |bills|
    ensures r.overdueCount == 0 <==> forall k :: 0 <= k < |bills| ==> bills[k].status != "Overdue"
  {
    var revenue := Sum(bills, Amount);
    var collected := Sum(bills, Paid);
    var overdue := Filter(bills, StoredOverdue);
    SumDueIsDifference(bills);
    FilterEmptyIff(bills, StoredOverdue);
    BillingStats(revenue, collected, revenue - collected, |overdue|)
  }

  /** The page's totals agree with the service's financial summary over the
      same bills. */
  lemma StatsAgreeWithSummary(svc: BillingService, now: int)
    ensures var s := Stats(svc.bills);
      var f := svc.GetFinancialSummary(now);
      s.totalRevenue == f.totalRevenue && s.totalCollected == f.totalCollected
      && s.totalOutstanding == f.totalOutstanding
  {
  }

  /** The page's overdue count reads the stored status, so a bill past its due
      date that is still "Pending" is overdue for the service but not counted
      here. */
  lemma StoredStatusIsNotDueDate()
    ensures var b := Bill(1, "INV-2024-001", "1", "A", 0, 0, 100, 0, "Pending");
      IsOverdue(b, 1) && Stats([b]).overdueCount == 0
  {
  }
}
