/** The wholesaler's payment list (src/components/wholesaler/WholesalerPayments.tsx):
    five sample payments, a status and a method filter, the cards and the
    per-method summary of completed payments. Status and method are the
    source's plain strings. */
module WholesalerPayments {

  import Seqs

  datatype Payment = Payment(
    id: string,
    invoiceNumber: string,
    customer: string,
    amount: real,
    paymentMethod: string,
    status: string,
    date: string,
    transactionId: string,
    description: string)

  const Samples: seq<Payment> := [
    Payment("1", "INV-2025-024", "Retail Customer", 875.75, "khalti", "completed", "2025-01-15T10:30:00Z",
      "KHL-WS-123456", "Payment for retail sale"),
    Payment("2", "INV-2025-023", "Grocery Store", 1356.0, "bank_transfer", "pending", "2025-01-15T09:15:00Z",
      "BT-WS-789012", "Bulk order payment"),
    Payment("3", "INV-2025-022", "Mini Mart", 847.5, "cash", "completed", "2025-01-14T16:45:00Z",
      "CSH-WS-345678", "Cash payment received"),
    Payment("4", "INV-2025-021", "Local Shop", 1084.8, "esewa", "failed", "2025-01-14T14:20:00Z",
      "ESW-WS-901234", "Payment failed - insufficient balance"),
    Payment("5", "INV-2025-020", "Corner Store", 650.0, "khalti", "completed", "2025-01-13T11:30:00Z",
      "KHL-WS-567890", "Regular customer payment")
  ]

  // ---------------------------------------------------------------------------
  // The filters.

  /** Both filters must match; an empty filter matches anything. */
  predicate Matches(status: string, code: string, p: Payment)
  {
    (status == "" || p.status == status) && (code == "" || p.paymentMethod == code)
  }

  function MatchedBy(status: string, code: string): Payment -> bool
  {
    (p: Payment) => Matches(status, code, p)
  }

  function Filtered(payments: seq<Payment>, status: string, code: string): (r: seq<Payment>)
    ensures |r| <= |payments|
    ensures forall i :: 0 <= i < |r| ==> r[i] in payments && Matches(status, code, r[i])
    ensures forall i :: 0 <= i < |payments| && Matches(status, code, payments[i]) ==> payments[i] in r
  {
    Seqs.Filter(payments, MatchedBy(status, code))
  }

  lemma NoFilterShowsAll(payments: seq<Payment>)
    ensures Filtered(payments, "", "") == payments
  {
    Seqs.FilterKeepsAll(payments, MatchedBy("", ""));
  }

  // ---------------------------------------------------------------------------
  // The cards.

  function WithStatus(status: string): Payment -> bool
  {
    (p: Payment) => p.status == status
  }

  function Amount(p: Payment): real { p.amount }

  function CountStatus(payments: seq<Payment>, status: string): nat
  {
    |Seqs.Filter(payments, WithStatus(status))|
  }

  /** `totalReceived` for "completed", `pendingAmount` for "pending". */
  function AmountWithStatus(payments: seq<Payment>, status: string): real
  {
    Seqs.Sum(Seqs.Filter(payments, WithStatus(status)), Amount)
  }

  /** The completed, pending and failed cards never exceed the total. */
  lemma {:induction false} CountsBound(payments: seq<Payment>)
    ensures CountStatus(payments, "completed") + CountStatus(payments, "pending") + CountStatus(payments, "failed")
      <= |payments|
  {
    if payments != [] {
      CountsBound(payments[1..]);
    }
  }

  /** With no negative amounts, received and pending money never exceed all money. */
  lemma AmountsBound(payments: seq<Payment>)
    requires forall i :: 0 <= i < |payments| ==> payments[i].amount >= 0.0
    ensures AmountWithStatus(payments, "completed") + AmountWithStatus(payments, "pending")
      <= Seqs.Sum(payments, Amount)
  {
    Seqs.SumDisjointFilters(payments, WithStatus("completed"), WithStatus("pending"), Amount);
  }

  /** `getMethodName`. */
  function MethodName(code: string): (r: string)
    ensures code == "khalti" ==> r == "Khalti"
    ensures code == "esewa" ==> r == "eSewa"
    ensures code == "bank_transfer" ==> r == "Bank Transfer"
    ensures code == "cash" ==> r == "Cash"
    ensures code !in Methods ==> r == code
  {
    if code == "khalti" then "Khalti"
    else if code == "esewa" then "eSewa"
    else if code == "bank_transfer" then "Bank Transfer"
    else if code == "cash" then "Cash"
    else code
  }

  /** The methods the summary has a card for. */
  const Methods: seq<string> := ["khalti", "esewa", "bank_transfer", "cash"]

  /** The four labels are distinct, so every known method reads differently. */
  lemma MethodNamesDistinct(a: string, b: string)
    requires a in Methods && b in Methods
    ensures MethodName(a) == MethodName(b) <==> a == b
  {
  }

  // ---------------------------------------------------------------------------
  // The per-method summary.

  function CompletedVia(code: string): Payment -> bool
  {
    (p: Payment) => p.paymentMethod == code && p.status == "completed"
  }

  datatype MethodSummary = MethodSummary(count: nat, total: real)

  function Summary(payments: seq<Payment>, code: string): MethodSummary
  {
    var done := Seqs.Filter(payments, CompletedVia(code));
    MethodSummary(|done|, Seqs.Sum(done, Amount))
  }

  /** A method's card counts and sums exactly its completed payments: the same
      list the filters show for "completed" and that method. */
  lemma {:induction false} SummaryIsFilteredCompleted(payments: seq<Payment>, code: string)
    requires code != ""
    ensures Seqs.Filter(payments, CompletedVia(code)) == Filtered(payments, "completed", code)
  {
    if payments != [] {
      SummaryIsFilteredCompleted(payments[1..], code);
    }
  }

  /** A method's completed payments are among all completed ones. */
  lemma {:induction false} SummaryWithinCompleted(payments: seq<Payment>, code: string)
    requires forall i :: 0 <= i < |payments| ==> payments[i].amount >= 0.0
    ensures Summary(payments, code).count <= CountStatus(payments, "completed")
    ensures Summary(payments, code).total <= AmountWithStatus(payments, "completed")
  {
    if payments != [] {
      SummaryWithinCompleted(payments[1..], code);
      if payments[0].status == "completed" && payments[0].paymentMethod != code {
        Seqs.SumNonNegative(Seqs.Filter(payments[1..], CompletedVia(code)), Amount);
      }
    }
  }

  /** The completed samples are the first, third and fifth. */
  lemma CompletedSamples()
    ensures Seqs.Filter(Samples, WithStatus("completed")) == [Samples[0], Samples[2], Samples[4]]
  {
    var s, p := Samples, WithStatus("completed");
    var t1 := s[1..];
    var t2 := t1[1..];
    var t3 := t2[1..];
    var t4 := t3[1..];
    assert t4[1..] == [];
    assert Seqs.Filter(t4, p) == [s[4]];
    assert Seqs.Filter(t3, p) == [s[4]];
    assert Seqs.Filter(t2, p) == [s[2], s[4]];
    assert Seqs.Filter(t1, p) == [s[2], s[4]];
  }

  /** The sample cards: three completed payments worth 2373.25. */
  lemma SampleCompleted()
    ensures CountStatus(Samples, "completed") == 3 && AmountWithStatus(Samples, "completed") == 2373.25
  {
    CompletedSamples();
    var done := [Samples[0], Samples[2], Samples[4]];
    assert done[1..][1..][1..] == [];
  }

  /** One pending payment worth 1356. */
  lemma SamplePending()
    ensures CountStatus(Samples, "pending") == 1 && AmountWithStatus(Samples, "pending") == 1356.0
  {
    var s, p := Samples, WithStatus("pending");
    assert p(s[1]);
    assert !p(s[0]) && !p(s[2]) && !p(s[4]) by { assert s[0].status[0] != "pending"[0]; }
    assert !p(s[3]) by { assert s[3].status[0] != "pending"[0]; }
    var t1 := s[1..];
    var t2 := t1[1..];
    var t3 := t2[1..];
    var t4 := t3[1..];
    assert t4[1..] == [];
    assert Seqs.Filter(t4, p) == [];
    assert Seqs.Filter(t3, p) == [];
    assert Seqs.Filter(t2, p) == [];
    assert Seqs.Filter(t1, p) == [s[1]];
    assert Seqs.Filter(s, p) == [s[1]];
    assert [s[1]][1..] == [];
  }
}
