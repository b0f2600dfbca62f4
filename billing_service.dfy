/** The billing repository (src/services/api/billingService.js): an in-memory
    list of bills with lookup, creation with a generated invoice number, shallow
    updates, payment application and a financial summary. */
module BillingApi {
  import opened Wrappers
  import opened Seqs
  import opened Keyed
  import opened Text

  /** Money is in integer units; dates are millisecond timestamps. */
  datatype Bill = Bill(
    Id: int,
    invoiceNumber: string,
    patientId: string,
    patientName: string,
    date: int,
    dueDate: int,
    amount: int,
    paidAmount: int,
    status: string)

  /** The object passed to `update`: each present field overwrites the stored one. */
  datatype BillPatch = BillPatch(
    Id: Option<int>,
    invoiceNumber: Option<string>,
    patientId: Option<string>,
    patientName: Option<string>,
    date: Option<int>,
    dueDate: Option<int>,
    amount: Option<int>,
    paidAmount: Option<int>,
    status: Option<string>)

  function BillId(b: Bill): int { b.Id }
  function Amount(b: Bill): int { b.amount }
  function Paid(b: Bill): int { b.paidAmount }
  /** What is still owed on a bill. */
  function Due(b: Bill): int { b.amount - b.paidAmount }

  /** `{ ...b, ...p }`. */
  function Merge(b: Bill, p: BillPatch): Bill {
    Bill(p.Id.GetOr(b.Id), p.invoiceNumber.GetOr(b.invoiceNumber), p.patientId.GetOr(b.patientId),
         p.patientName.GetOr(b.patientName), p.date.GetOr(b.date), p.dueDate.GetOr(b.dueDate),
         p.amount.GetOr(b.amount), p.paidAmount.GetOr(b.paidAmount), p.status.GetOr(b.status))
  }

  /** A shallow merge: fields present in the patch win, absent ones are kept. */
  lemma MergeSpec(b: Bill, p: BillPatch)
    ensures var r := Merge(b, p);
      && (if p.Id.Some? then r.Id == p.Id.value else r.Id == b.Id)
      && (if p.invoiceNumber.Some? then r.invoiceNumber == p.invoiceNumber.value else r.invoiceNumber == b.invoiceNumber)
      && (if p.patientId.Some? then r.patientId == p.patientId.value else r.patientId == b.patientId)
      && (if p.patientName.Some? then r.patientName == p.patientName.value else r.patientName == b.patientName)
      && (if p.date.Some? then r.date == p.date.value else r.date == b.date)
      && (if p.dueDate.Some? then r.dueDate == p.dueDate.value else r.dueDate == b.dueDate)
      && (if p.amount.Some? then r.amount == p.amount.value else r.amount == b.amount)
      && (if p.paidAmount.Some? then r.paidAmount == p.paidAmount.value else r.paidAmount == b.paidAmount)
      && (if p.status.Some? then r.status == p.status.value else r.status == b.status)
    ensures Merge(Merge(b, p), p) == Merge(b, p)
  {
  }

  /** `INV-{year}-{Id}` with the Id left-padded with '0' to three characters. */
  function InvoiceNumber(year: int, id: int): string {
    "INV-" + IntToDecimal(year) + "-" + PadStart(IntToDecimal(id), 3, '0')
  }

  /** For a non-negative Id the invoice number is the year prefix followed by at
      least three digits whose value is the Id. */
  lemma InvoiceNumberEncodesId(year: int, id: int)
    requires id >= 0
    ensures var prefix := "INV-" + IntToDecimal(year) + "-";
      var inv := InvoiceNumber(year, id);
      && |inv| >= |prefix| + 3
      && inv[..|prefix|] == prefix
      && AllDigits(inv[|prefix|..])
      && ParseDecimal(inv[|prefix|..]) == id
  {
    var prefix := "INV-" + IntToDecimal(year) + "-";
    var digits := NatToDecimal(id);
    var pad := PadStart(digits, 3, '0');
    assert InvoiceNumber(year, id) == prefix + pad;
    assert (prefix + pad)[|prefix|..] == pad;
    DecimalRoundTrip(id);
    if |digits| < 3 {
      LeadingZeros(3 - |digits|, digits);
    }
  }

  /** Bills created in the same year with different non-negative Ids get
      different invoice numbers. */
  lemma InvoiceNumbersDistinct(year: int, a: int, b: int)
    requires a >= 0 && b >= 0 && a != b
    ensures InvoiceNumber(year, a) != InvoiceNumber(year, b)
  {
    InvoiceNumberEncodesId(year, a);
    InvoiceNumberEncodesId(year, b);
  }

  // ---- The payment state machine ----

  /** `processPayment` on one bill: accumulate, then Paid / Partial / unchanged. */
  function ApplyPayment(b: Bill, payment: int): (r: Bill)
    ensures r.paidAmount == b.paidAmount + payment
    ensures r == b.(paidAmount := r.paidAmount, status := r.status)
  {
    var paid := b.paidAmount + payment;
    b.(paidAmount := paid,
       status := if paid >= b.amount then "Paid" else if paid > 0 then "Partial" else b.status)
  }

  function TotalOf(payments: seq<int>): int
    decreases |payments|
  {
    if payments == [] then 0 else payments[0] + TotalOf(payments[1..])
  }

  /** A series of `processPayment` calls on one bill. */
  function ApplyPayments(b: Bill, payments: seq<int>): Bill
    decreases |payments|
  {
    if payments == [] then b else ApplyPayments(ApplyPayment(b, payments[0]), payments[1..])
  }

  lemma {:induction false} TotalNonNegative(payments: seq<int>)
    requires forall k :: 0 <= k < |payments| ==> payments[k] >= 0
    ensures TotalOf(payments) >= 0
    decreases |payments|
  {
    if payments != [] {
      TotalNonNegative(payments[1..]);
    }
  }

  /** After one or more non-negative payments, the bill has been paid the total,
      and its status depends only on that total: Paid once it covers the amount,
      Partial when something but not enough was paid, otherwise unchanged. No
      other field changes. */
  lemma {:induction false} PaymentsAccumulate(b: Bill, payments: seq<int>)
    requires |payments| > 0
    requires forall k :: 0 <= k < |payments| ==> payments[k] >= 0
    ensures var r := ApplyPayments(b, payments);
      var paid := b.paidAmount + TotalOf(payments);
      && r.paidAmount == paid
      && r.status == (if paid >= b.amount then "Paid" else if paid > 0 then "Partial" else b.status)
      && r == b.(paidAmount := paid, status := r.status)
    decreases |payments|
  {
    var b1 := ApplyPayment(b, payments[0]);
    if |payments| > 1 {
      PaymentsAccumulate(b1, payments[1..]);
      TotalNonNegative(payments[1..]);
    }
  }

  /** The worked example: 100 due, pay 40 (Partial), then 60 (Paid). */
  lemma PaymentExample(b: Bill)
    requires b.amount == 100 && b.paidAmount == 0 && b.status == "Pending"
    ensures ApplyPayment(b, 40).paidAmount == 40 && ApplyPayment(b, 40).status == "Partial"
    ensures ApplyPayments(b, [40, 60]).paidAmount == 100
    ensures ApplyPayments(b, [40, 60]).status == "Paid"
  {
  }

  // ---- Overdue bills and the financial summary ----

  /** Past its due date and not marked Paid. */
  predicate IsOverdue(b: Bill, now: int) {
    b.dueDate < now && b.status != "Paid"
  }

  datatype FinancialSummary = FinancialSummary(
    totalRevenue: int,
    totalCollected: int,
    totalOutstanding: int,
    overdueAmount: int,
    overdueCount: nat)

  /** What is owed in total is what was billed minus what was collected. */
  lemma {:induction false} SumDueIsDifference(bills: seq<Bill>)
    ensures Sum(bills, Due) == Sum(bills, Amount) - Sum(bills, Paid)
    decreases |bills|
  {
    if bills != [] {
      SumDueIsDifference(bills[1..]);
    }
  }

  class BillingService {
    var bills: seq<Bill>

    constructor (seed: seq<Bill>)
      ensures bills == seed
    {
      bills := seed;
    }

    /** A snapshot of the store: the same bills in the same order. */
    function GetAll(): (r: seq<Bill>)
      reads this
      ensures r == bills
    {
      bills
    }

    function GetById(id: int): (r: Result<Bill>)
      reads this
      ensures r.Ok? <==> HasKey(bills, BillId, id)
      ensures r.Ok? ==> r.value in bills && r.value.Id == id
      ensures r.NotFound? ==> r.message == "Bill not found"
    {
      match FindIndex(bills, BillId, id)
      case None => NotFound("Bill not found")
      case Some(i) => Ok(bills[i])
    }

    /** The bills whose patientId is the decimal form of `patientId`. */
    function GetByPatientId(patientId: int): (r: seq<Bill>)
      reads this
      ensures forall b :: b in r <==> b in bills && b.patientId == IntToDecimal(patientId)
      ensures forall b :: multiset(r)[b] == if b.patientId == IntToDecimal(patientId) then multiset(bills)[b] else 0
      ensures IsSubseq(r, bills)
    {
      var key := IntToDecimal(patientId);
      Filter(bills, (b: Bill) => b.patientId == key)
    }

    function GetOverdueBills(now: int): (r: seq<Bill>)
      reads this
      ensures forall b :: b in r <==> b in bills && b.dueDate < now && b.status != "Paid"
      ensures forall b :: multiset(r)[b] == if b.dueDate < now && b.status != "Paid" then multiset(bills)[b] else 0
      ensures forall b :: b in r ==> b.status != "Paid"
      ensures IsSubseq(r, bills)
    {
      Filter(bills, (b: Bill) => IsOverdue(b, now))
    }

    /** Appends a bill with the next Id, its invoice number and status Pending,
        whatever `data` held in those fields. */
    method Create(data: Bill, year: int) returns (created: Bill)
      requires |bills| > 0
      modifies this
      ensures var id := NextKey(old(bills), BillId);
        created == data.(Id := id, invoiceNumber := InvoiceNumber(year, id), status := "Pending")
      ensures bills == old(bills) + [created]
      ensures forall j :: 0 <= j < |old(bills)| ==> old(bills)[j].Id < created.Id
      ensures UniqueKeys(old(bills), BillId) ==> UniqueKeys(bills, BillId)
    {
      var id := NextKey(bills, BillId);
      created := data.(Id := id, invoiceNumber := InvoiceNumber(year, id), status := "Pending");
      if UniqueKeys(bills, BillId) {
        AppendKeepsUnique(bills, BillId, created);
      }
      bills := bills + [created];
    }

    method Update(id: int, patch: BillPatch) returns (r: Result<Bill>)
      modifies this
      ensures FindIndex(old(bills), BillId, id).None? ==>
        r == NotFound("Bill not found") && bills == old(bills)
      ensures FindIndex(old(bills), BillId, id).Some? ==>
        var i := FindIndex(old(bills), BillId, id).value;
        bills == old(bills)[i := Merge(old(bills)[i], patch)] && r == Ok(bills[i])
      ensures UniqueKeys(old(bills), BillId) && (patch.Id.None? || patch.Id == Some(id)) ==>
        UniqueKeys(bills, BillId)
    {
      match FindIndex(bills, BillId, id) {
        case None =>
          r := NotFound("Bill not found");
        case Some(i) =>
          var merged := Merge(bills[i], patch);
          if UniqueKeys(bills, BillId) && (patch.Id.None? || patch.Id == Some(id)) {
            ReplaceKeepsUnique(bills, BillId, i, merged);
          }
          bills := bills[i := merged];
          r := Ok(merged);
      }
    }

    method ProcessPayment(id: int, payment: int) returns (r: Result<Bill>)
      modifies this
      ensures FindIndex(old(bills), BillId, id).None? ==>
        r == NotFound("Bill not found") && bills == old(bills)
      ensures FindIndex(old(bills), BillId, id).Some? ==>
        var i := FindIndex(old(bills), BillId, id).value;
        bills == old(bills)[i := ApplyPayment(old(bills)[i], payment)] && r == Ok(bills[i])
      ensures UniqueKeys(old(bills), BillId) ==> UniqueKeys(bills, BillId)
    {
      match FindIndex(bills, BillId, id) {
        case None =>
          r := NotFound("Bill not found");
        case Some(i) =>
          var paid := ApplyPayment(bills[i], payment);
          if UniqueKeys(bills, BillId) {
            ReplaceKeepsUnique(bills, BillId, i, paid);
          }
          bills := bills[i := paid];
          r := Ok(paid);
      }
    }

    /** Totals over all bills, and the amount and number of the bills that
        `GetOverdueBills` selects. */
    function GetFinancialSummary(now: int): (r: FinancialSummary)
      reads this
      ensures r.totalRevenue == Sum(bills, Amount) && r.totalCollected == Sum(bills, Paid)
      ensures r.totalOutstanding == r.totalRevenue - r.totalCollected
      ensures r.overdueCount == |GetOverdueBills(now)|
      ensures r.overdueAmount == Sum(GetOverdueBills(now), Due)
    {
      var revenue := Sum(bills, Amount);
      var collected := Sum(bills, Paid);
      var overdue := GetOverdueBills(now);
      FinancialSummary(revenue, collected, revenue - collected, Sum(overdue, Due), |overdue|)
    }
  }

  /** When no bill is overpaid, the overdue amount is between zero and the total
      outstanding. */
  lemma OverdueWithinOutstanding(svc: BillingService, now: int)
    requires forall k :: 0 <= k < |svc.bills| ==> svc.bills[k].paidAmount <= svc.bills[k].amount
    ensures 0 <= svc.GetFinancialSummary(now).overdueAmount <= svc.GetFinancialSummary(now).totalOutstanding
  {
    var overdue := svc.GetOverdueBills(now);
    SumDueIsDifference(svc.bills);
    SumFilterAtMost(svc.bills, (b: Bill) => IsOverdue(b, now), Due);
    forall k | 0 <= k < |overdue|
      ensures Due(overdue[k]) >= 0
    {
      assert overdue[k] in svc.bills;
    }
    SumNonNegative(overdue, Due);
  }
}
