/**
 * The invoice tools the agent can call (src/react_agent/tools.py).
 *
 * The source keeps its invoice, department and people tables in module-level
 * lists; here every table is an explicit parameter, and the one table the
 * source mutates in place lives in an `InvoiceLedger` object.
 */
module Tools {
  import opened Wrappers

  // ---------------------------------------------------------------------------
  // Data model
  // ---------------------------------------------------------------------------

  /** A calendar date, already parsed from its "YYYY-MM-DD" text. */
  datatype Date = Date(year: int, month: int, day: int)

  /** One line of an invoice; `total` is stored, not derived from quantity and price. */
  datatype LineItem = LineItem(
    name: string,
    description: string,
    quantity: int,
    price: int,
    total: int)

  /** An invoice record; `paymentDate` is the key the payment update adds. */
  datatype Invoice = Invoice(
    id: string,
    date: Date,
    amount: int,
    status: string,
    dueDate: Date,
    currency: string,
    customerName: string,
    poNumber: string,
    terms: string,
    notes: string,
    items: seq<LineItem>,
    paymentDate: Option<Date>)

  datatype Department = Department(id: string, name: string)

  datatype Person = Person(firstName: string, lastName: string, title: string, email: string)

  /** The statuses the payment update accepts. */
  const ValidStatuses: seq<string> := ["paid", "unpaid", "overdue"]

  // ---------------------------------------------------------------------------
  // Dates
  // ---------------------------------------------------------------------------

  /** Strict chronological order: year, then month, then day. */
  predicate Before(a: Date, b: Date) {
    a.year < b.year
    || (a.year == b.year && a.month < b.month)
    || (a.year == b.year && a.month == b.month && a.day < b.day)
  }

  /** `Before` is a strict total order, as the comparison of parsed dates is. */
  lemma BeforeIsStrictTotalOrder(a: Date, b: Date, c: Date)
    ensures !Before(a, a)
    ensures Before(a, b) && Before(b, c) ==> Before(a, c)
    ensures a == b || Before(a, b) || Before(b, a)
  {
  }

  // ---------------------------------------------------------------------------
  // Substring test (Python's `q in s` on strings)
  // ---------------------------------------------------------------------------

  /** True when `q` occurs in `s` as a contiguous run of characters. */
  function Contains(q: string, s: string): bool
    decreases |s|
  {
    if |q| > |s| then false
    else q <= s || (|s| > 0 && Contains(q, s[1..]))
  }

  /** `q` occurs in `s` at offset `i`. */
  ghost predicate OccursAt(q: string, s: string, i: int) {
    0 <= i && i + |q| <= |s| && s[i..i + |q|] == q
  }

  /** `Contains` agrees with the offset-based definition of a substring. */
  lemma {:induction false} ContainsIff(q: string, s: string)
    ensures Contains(q, s) <==> exists i :: OccursAt(q, s, i)
    decreases |s|
  {
    if |q| > |s| {
      assert forall i :: !OccursAt(q, s, i);
    } else if q <= s {
      assert s[0..|q|] == q;
      assert OccursAt(q, s, 0);
    } else {
      // not a prefix, so |q| <= |s| forces a non-empty s
      ContainsIff(q, s[1..]);
      forall i ensures OccursAt(q, s, i) <==> (i >= 1 && OccursAt(q, s[1..], i - 1)) {
        if i == 0 {
          assert OccursAt(q, s, 0) ==> q <= s;
        } else if i >= 1 && i + |q| <= |s| {
          assert s[1..][i - 1..i - 1 + |q|] == s[i..i + |q|];
        }
      }
      if Contains(q, s[1..]) {
        var i :| OccursAt(q, s[1..], i);
        assert OccursAt(q, s, i + 1);
      }
    }
  }

  /** The empty query occurs in every string. */
  lemma EmptyQueryMatchesAll(s: string)
    ensures Contains([], s)
  {
  }

  // ---------------------------------------------------------------------------
  // parse_invoice_data
  // ---------------------------------------------------------------------------

  /** The invoices of `store`, in store order, whose id contains `query`. */
  function MatchingInvoices(store: seq<Invoice>, query: string): (r: seq<Invoice>)
    ensures |r| <= |store|
  {
    if store == [] then []
    else
      var last := store[|store| - 1];
      var init := MatchingInvoices(store[..|store| - 1], query);
      if Contains(query, last.id) then init + [last] else init
  }

  /** An invoice is selected exactly when it is in the store and its id contains the query. */
  lemma {:induction false} MatchingInvoicesMembers(store: seq<Invoice>, query: string, x: Invoice)
    ensures x in MatchingInvoices(store, query) <==> x in store && Contains(query, x.id)
  {
    if store != [] {
      var init := store[..|store| - 1];
      assert store == init + [store[|store| - 1]];
      MatchingInvoicesMembers(init, query, x);
    }
  }

  /** The empty query selects the whole store, unchanged and in order. */
  lemma {:induction false} EmptyQuerySelectsAll(store: seq<Invoice>)
    ensures MatchingInvoices(store, []) == store
  {
    if store != [] {
      EmptyQuerySelectsAll(store[..|store| - 1]);
      assert store == store[..|store| - 1] + [store[|store| - 1]];
    }
  }

  /** parse_invoice_data: scan the store and keep the invoices whose id contains the query. */
  method ParseInvoiceData(store: seq<Invoice>, query: string) returns (results: seq<Invoice>)
    ensures results == MatchingInvoices(store, query)
    ensures forall x :: x in results <==> x in store && Contains(query, x.id)
  {
    results := [];
    var i := 0;
    while i < |store|
      invariant 0 <= i <= |store|
      invariant results == MatchingInvoices(store[..i], query)
    {
      assert store[..i + 1][..i] == store[..i];
      if Contains(query, store[i].id) {
        results := results + [store[i]];
      }
      i := i + 1;
    }
    assert store[..i] == store;
    forall x ensures x in results <==> x in store && Contains(query, x.id) {
      MatchingInvoicesMembers(store, query, x);
    }
  }

  // ---------------------------------------------------------------------------
  // cross_reference_po
  // ---------------------------------------------------------------------------

  /**
   * cross_reference_po: the name of the first department, in table order,
   * whose id contains the PO number; None when no department matches.
   */
  method CrossReferencePo(departments: seq<Department>, poNumber: string) returns (r: Option<string>)
    ensures r.None? <==> forall j :: 0 <= j < |departments| ==> !Contains(poNumber, departments[j].id)
    ensures r.Some? ==>
      exists i :: 0 <= i < |departments| && Contains(poNumber, departments[i].id)
        && r.value == departments[i].name
        && forall j :: 0 <= j < i ==> !Contains(poNumber, departments[j].id)
  {
    var i := 0;
    while i < |departments|
      invariant 0 <= i <= |departments|
      invariant forall j :: 0 <= j < i ==> !Contains(poNumber, departments[j].id)
    {
      if Contains(poNumber, departments[i].id) {
        return Some(departments[i].name);
      }
      i := i + 1;
    }
    return None;
  }

  // ---------------------------------------------------------------------------
  // compute_invoice_totals
  // ---------------------------------------------------------------------------

  /** The sum of the stored line totals. */
  function SumOfTotals(items: seq<LineItem>): int {
    if items == [] then 0 else SumOfTotals(items[..|items| - 1]) + items[|items| - 1].total
  }

  /** Summing line totals distributes over concatenation of item lists. */
  lemma {:induction false} SumOfTotalsAppend(a: seq<LineItem>, b: seq<LineItem>)
    ensures SumOfTotals(a + b) == SumOfTotals(a) + SumOfTotals(b)
    decreases |b|
  {
    if b == [] {
      assert a + b == a;
    } else {
      var bInit := b[..|b| - 1];
      assert (a + b)[..|a + b| - 1] == a + bInit;
      SumOfTotalsAppend(a, bInit);
    }
  }

  /** When no line total is negative, neither is the invoice total. */
  lemma {:induction false} SumOfTotalsNonNegative(items: seq<LineItem>)
    requires forall k :: 0 <= k < |items| ==> items[k].total >= 0
    ensures SumOfTotals(items) >= 0
  {
    if items != [] {
      SumOfTotalsNonNegative(items[..|items| - 1]);
    }
  }

  /**
   * The invoice total depends on the stored line totals alone: two item
   * lists that agree on every `total` have the same sum, whatever their
   * quantities, prices, names or descriptions.
   */
  lemma {:induction false} SumOfTotalsIgnoresPrice(a: seq<LineItem>, b: seq<LineItem>)
    requires |a| == |b|
    requires forall k :: 0 <= k < |a| ==> a[k].total == b[k].total
    ensures SumOfTotals(a) == SumOfTotals(b)
  {
    if a != [] {
      SumOfTotalsIgnoresPrice(a[..|a| - 1], b[..|b| - 1]);
    }
  }

  /** compute_invoice_totals: accumulate the stored total of every line item. */
  method ComputeInvoiceTotals(invoice: Invoice) returns (total: int)
    ensures total == SumOfTotals(invoice.items)
    ensures invoice.items == [] ==> total == 0
  {
    var items := invoice.items;
    total := 0;
    var i := 0;
    while i < |items|
      invariant 0 <= i <= |items|
      invariant total == SumOfTotals(items[..i])
    {
      assert items[..i + 1][..i] == items[..i];
      total := total + items[i].total;
      i := i + 1;
    }
    assert items[..i] == items;
  }

  // ---------------------------------------------------------------------------
  // get_people_directory
  // ---------------------------------------------------------------------------

  /** get_people_directory: the whole directory, whichever department is asked for. */
  function PeopleDirectory(directory: seq<Person>, department: string): (r: seq<Person>)
    ensures r == directory
  {
    directory
  }

  // ---------------------------------------------------------------------------
  // query_unpaid_invoices
  // ---------------------------------------------------------------------------

  /** The invoice is unpaid and fell due strictly before `asOf`. */
  predicate UnpaidAndDueBefore(inv: Invoice, asOf: Date) {
    inv.status == "unpaid" && Before(inv.dueDate, asOf)
  }

  /** The unpaid invoices of `store`, in store order, due strictly before `asOf`. */
  function UnpaidDueBefore(store: seq<Invoice>, asOf: Date): (r: seq<Invoice>)
    ensures |r| <= |store|
  {
    if store == [] then []
    else
      var last := store[|store| - 1];
      var init := UnpaidDueBefore(store[..|store| - 1], asOf);
      if UnpaidAndDueBefore(last, asOf) then init + [last] else init
  }

  /** An invoice is reported exactly when it is in the store, unpaid and overdue at `asOf`. */
  lemma {:induction false} UnpaidDueBeforeMembers(store: seq<Invoice>, asOf: Date, x: Invoice)
    ensures x in UnpaidDueBefore(store, asOf) <==> x in store && UnpaidAndDueBefore(x, asOf)
  {
    if store != [] {
      var init := store[..|store| - 1];
      assert store == init + [store[|store| - 1]];
      UnpaidDueBeforeMembers(init, asOf, x);
    }
  }

  /** Every reported invoice is unpaid and due before the cut-off date. */
  lemma {:induction false} UnpaidDueBeforeSound(store: seq<Invoice>, asOf: Date)
    ensures forall k :: 0 <= k < |UnpaidDueBefore(store, asOf)| ==>
      UnpaidDueBefore(store, asOf)[k].status == "unpaid"
      && Before(UnpaidDueBefore(store, asOf)[k].dueDate, asOf)
  {
    if store != [] {
      UnpaidDueBeforeSound(store[..|store| - 1], asOf);
    }
  }

  /**
   * query_unpaid_invoices: scan the store for unpaid invoices due before
   * `asOf`. The department argument takes no part in the selection.
   */
  method QueryUnpaidInvoices(store: seq<Invoice>, department: string, asOf: Date)
    returns (results: seq<Invoice>)
    ensures results == UnpaidDueBefore(store, asOf)
    ensures forall x :: x in results <==> x in store && UnpaidAndDueBefore(x, asOf)
  {
    results := [];
    var i := 0;
    while i < |store|
      invariant 0 <= i <= |store|
      invariant results == UnpaidDueBefore(store[..i], asOf)
    {
      assert store[..i + 1][..i] == store[..i];
      if store[i].status == "unpaid" && Before(store[i].dueDate, asOf) {
        results := results + [store[i]];
      }
      i := i + 1;
    }
    assert store[..i] == store;
    forall x ensures x in results <==> x in store && UnpaidAndDueBefore(x, asOf) {
      UnpaidDueBeforeMembers(store, asOf, x);
    }
  }

  // ---------------------------------------------------------------------------
  // send_notification_email
  // ---------------------------------------------------------------------------

  /**
   * send_notification_email: True exactly when the recipient is one of the
   * directory's addresses. Nothing is sent and nothing changes.
   */
  method SendNotificationEmail(directory: seq<Person>, to: string, subject: string, body: string)
    returns (sent: bool)
    ensures sent <==> exists i :: 0 <= i < |directory| && directory[i].email == to
  {
    var i := 0;
    while i < |directory|
      invariant 0 <= i <= |directory|
      invariant forall j :: 0 <= j < i ==> directory[j].email != to
    {
      if to == directory[i].email {
        return true;
      }
      i := i + 1;
    }
    return false;
  }

  // ---------------------------------------------------------------------------
  // update_invoice_payment_status
  // ---------------------------------------------------------------------------

  /** The lookup failure of the payment update: no invoice has the given id. */
  datatype LedgerError = UnknownInvoice(id: string)

  /**
   * The invoice after a payment is recorded: a payment made before the due
   * date marks it "overdue", any other payment gives it the requested
   * status; either way the payment date is stored and nothing else changes.
   */
  function RecordPayment(inv: Invoice, status: string, paymentDate: Date): (r: Invoice)
    ensures Before(paymentDate, inv.dueDate) ==> r.status == "overdue"
    ensures !Before(paymentDate, inv.dueDate) ==> r.status == status
    ensures r.paymentDate == Some(paymentDate)
    ensures r.(status := inv.status, paymentDate := inv.paymentDate) == inv
  {
    var newStatus := if Before(paymentDate, inv.dueDate) then "overdue" else status;
    inv.(status := newStatus, paymentDate := Some(paymentDate))
  }

  /** Recording the same payment twice leaves the invoice as recording it once. */
  lemma RecordPaymentIdempotent(inv: Invoice, status: string, paymentDate: Date)
    ensures RecordPayment(RecordPayment(inv, status, paymentDate), status, paymentDate)
         == RecordPayment(inv, status, paymentDate)
  {
  }

  /** The shared invoice store that the payment update mutates, keyed by invoice id. */
  class InvoiceLedger {
    var invoices: map<string, Invoice>

    constructor (initial: map<string, Invoice>)
      ensures invoices == initial
    {
      invoices := initial;
    }

    /**
     * update_invoice_payment_status: refuse an unknown status or a missing
     * payment date (False, no change); otherwise record the payment on the
     * invoice with that id (True), leaving every other invoice as it was.
     */
    method UpdateInvoicePaymentStatus(invoiceId: string, status: string, paymentDate: Option<Date>)
      returns (r: Result<bool, LedgerError>)
      modifies this
      ensures status !in ValidStatuses ==> r == Ok(false) && invoices == old(invoices)
      ensures status in ValidStatuses && paymentDate.None? ==> r == Ok(false) && invoices == old(invoices)
      ensures status in ValidStatuses && paymentDate.Some? && invoiceId !in old(invoices) ==>
        r == Err(UnknownInvoice(invoiceId)) && invoices == old(invoices)
      ensures status in ValidStatuses && paymentDate.Some? && invoiceId in old(invoices) ==>
        r == Ok(true)
        && invoices == old(invoices)[invoiceId := RecordPayment(old(invoices)[invoiceId], status, paymentDate.value)]
    {
      if status !in ValidStatuses {
        return Ok(false);
      }
      if paymentDate.None? {
        return Ok(false);
      }
      if invoiceId !in invoices {
        return Err(UnknownInvoice(invoiceId));
      }
      var inv := invoices[invoiceId];
      if Before(paymentDate.value, inv.dueDate) {
        invoices := invoices[invoiceId := inv.(status := "overdue", paymentDate := paymentDate)];
      } else {
        invoices := invoices[invoiceId := inv.(status := status, paymentDate := paymentDate)];
      }
      return Ok(true);
    }
  }
}
