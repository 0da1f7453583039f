/** The invoice list (`src/components/InvoiceManagement.tsx`): which
    invoices a visitor sees, the search and status filter, the figures
    above the table, and the actions each row offers. */
module InvoiceManagement {
  import opened Wrappers
  import opened Text
  import opened Seqs
  import opened Types

  /** Whose invoices a visitor sees: an administrator all, a cashier the
      sales recorded under their id, anyone else the invoices sent to their
      e-mail. A guest's `undefined` e-mail equals no invoice's. */
  predicate VisibleTo(user: Option<User>, inv: Invoice) {
    match user
    case None => false
    case Some(u) =>
      match u.role
      case Admin => true
      case Cashier => inv.cashierId == Some(u.id)
      case Customer => inv.customerEmail == u.email
  }

  function Visible(user: Option<User>): Invoice -> bool {
    (inv: Invoice) => VisibleTo(user, inv)
  }

  /** `userInvoices`: exactly the visible invoices, in list order. */
  function UserInvoices(invoices: seq<Invoice>, user: Option<User>): (r: seq<Invoice>)
    ensures user.Some? && user.value.role == Admin ==> r == invoices
    ensures user.None? ==> r == []
    ensures forall i :: 0 <= i < |r| ==> r[i] in invoices && VisibleTo(user, r[i])
    ensures forall i :: 0 <= i < |invoices| && VisibleTo(user, invoices[i]) ==> invoices[i] in r
  {
    if user.Some? && user.value.role == Admin then invoices
    else
      var r := Filter(Visible(user), invoices);
      assert forall i :: 0 <= i < |r| ==> Visible(user)(r[i]);
      assert forall i :: 0 <= i < |invoices| && VisibleTo(user, invoices[i]) ==> Visible(user)(invoices[i]);
      if user.None? then
        FilterNone(Visible(user), invoices);
        r
      else r
  }

  lemma UserInvoicesKeepOrder(invoices: seq<Invoice>, user: Option<User>)
    ensures IsSubsequence(UserInvoices(invoices, user), invoices)
  {
    if user.Some? && user.value.role == Admin {
      SubsequenceReflexive(invoices);
    } else {
      FilterIsSubsequence(Visible(user), invoices);
    }
  }

  lemma {:induction false} SubsequenceReflexive<T>(xs: seq<T>)
    ensures IsSubsequence(xs, xs)
    decreases |xs|
  {
    if xs != [] {
      SubsequenceReflexive(xs[1..]);
    }
  }

  /** The row filter: the search term in the customer's name or the id,
      ignoring case, and the chosen status. */
  predicate RowMatches(inv: Invoice, term: string, status: StatusFilter<InvoiceStatus>) {
    SearchMatches(inv.customerName, inv.id, term) && status.Accepts(inv.status)
  }

  function RowFilter(term: string, status: StatusFilter<InvoiceStatus>): Invoice -> bool {
    (inv: Invoice) => RowMatches(inv, term, status)
  }

  /** `filteredInvoices`: exactly the visible rows that match. */
  function FilteredInvoices(scoped: seq<Invoice>, term: string, status: StatusFilter<InvoiceStatus>): (r: seq<Invoice>)
    ensures forall i :: 0 <= i < |r| ==> r[i] in scoped && RowMatches(r[i], term, status)
    ensures forall i :: 0 <= i < |scoped| && RowMatches(scoped[i], term, status) ==> scoped[i] in r
  {
    var r := Filter(RowFilter(term, status), scoped);
    assert forall i :: 0 <= i < |r| ==> RowFilter(term, status)(r[i]);
    assert forall i :: 0 <= i < |scoped| && RowMatches(scoped[i], term, status) ==> RowFilter(term, status)(scoped[i]);
    r
  }

  /** The filter keeps the list's order. */
  lemma FilteredInvoicesKeepOrder(scoped: seq<Invoice>, term: string, status: StatusFilter<InvoiceStatus>)
    ensures IsSubsequence(FilteredInvoices(scoped, term, status), scoped)
  {
    FilterIsSubsequence(RowFilter(term, status), scoped);
  }

  /** With the search box empty and "all" statuses, every visible invoice
      is listed. */
  lemma NoFilterShowsAll(scoped: seq<Invoice>)
    ensures FilteredInvoices(scoped, "", AllStatuses) == scoped
  {
    forall i | 0 <= i < |scoped|
      ensures RowFilter("", AllStatuses)(scoped[i])
    {
      EmptyTermMatches(scoped[i].customerName, scoped[i].id);
    }
    FilterAll(RowFilter("", AllStatuses), scoped);
  }

  /** The figures above the table. */
  datatype InvoiceStats = InvoiceStats(totalInvoices: nat, totalAmount: real, paidInvoices: nat)

  function InvoiceTotal(inv: Invoice): real {
    inv.total
  }

  predicate IsPaid(inv: Invoice) {
    inv.status == Paid
  }

  /** `totalInvoices`, `totalAmount` and `paidInvoices` of the listed
      invoices: `paidInvoices` counts the listed invoices whose status is
      paid, which are among those counted. */
  function Stats(listed: seq<Invoice>): (s: InvoiceStats)
    ensures s.totalInvoices == |listed|
    ensures s.paidInvoices == |set i | 0 <= i < |listed| && listed[i].status == Paid|
    ensures s.paidInvoices <= s.totalInvoices
    ensures s.totalAmount == SumBy(InvoiceTotal, listed)
  {
    PaidPositions(listed);
    InvoiceStats(|listed|, SumBy(InvoiceTotal, listed), Count(IsPaid, listed))
  }

  lemma PaidPositions(listed: seq<Invoice>)
    ensures Count(IsPaid, listed) == |set i | 0 <= i < |listed| && listed[i].status == Paid|
  {
    CountPositions(IsPaid, listed);
    assert Positions(IsPaid, listed) == set i | 0 <= i < |listed| && listed[i].status == Paid;
  }

  /** Listing only paid invoices makes every counted invoice a paid one. */
  lemma {:induction false} PaidFilterAllPaid(scoped: seq<Invoice>, term: string)
    ensures var s := Stats(FilteredInvoices(scoped, term, OnlyStatus(Paid)));
      s.paidInvoices == s.totalInvoices
  {
    var listed := FilteredInvoices(scoped, term, OnlyStatus(Paid));
    forall i | 0 <= i < |listed|
      ensures IsPaid(listed[i])
    {
      assert RowMatches(listed[i], term, OnlyStatus(Paid));
    }
    FilterAll(IsPaid, listed);
  }

  /** Where every listed total is non-negative, so is their sum. */
  lemma TotalAmountNonNegative(listed: seq<Invoice>)
    requires forall i :: 0 <= i < |listed| ==> listed[i].total >= 0.0
    ensures Stats(listed).totalAmount >= 0.0
  {
    SumByNonNegative(InvoiceTotal, listed);
  }

  /** The send button: administrators and cashiers, on generated
      invoices. */
  predicate CanSend(user: Option<User>, inv: Invoice) {
    user.Some? && (user.value.role == Admin || user.value.role == Cashier) && inv.status == Generated
  }

  /** The mark-as-paid button: administrators, on invoices not yet paid. */
  predicate CanMarkPaid(user: Option<User>, inv: Invoice) {
    user.Some? && user.value.role == Admin && inv.status != Paid
  }

  /** The statuses an invoice row's buttons lead to. */
  function OfferedStatuses(user: Option<User>, inv: Invoice): (r: set<InvoiceStatus>)
    ensures Sent in r <==> CanSend(user, inv)
    ensures Paid in r <==> CanMarkPaid(user, inv)
    ensures Generated !in r
  {
    (if CanSend(user, inv) then {Sent} else {}) + (if CanMarkPaid(user, inv) then {Paid} else {})
  }

  /** Generated, then sent, then paid. */
  function StatusRank(s: InvoiceStatus): nat {
    match s
    case Generated => 0
    case Sent => 1
    case Paid => 2
  }

  /** The buttons only move an invoice forward (generated to sent,
      generated or sent to paid), and a customer is offered none. */
  lemma OfferedMovesForward(user: Option<User>, inv: Invoice, to: InvoiceStatus)
    requires to in OfferedStatuses(user, inv)
    ensures StatusRank(inv.status) < StatusRank(to)
    ensures user.Some? && user.value.role != Customer
  {
  }
}
