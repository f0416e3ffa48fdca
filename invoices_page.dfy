/** The wholesaler's invoice list (src/components/wholesaler/InvoicesPage.tsx):
    four sample invoices, a status filter and the cards. Invoices are charged
    VAT at 13 percent of the subtotal. */
module InvoicesPage {

  import Seqs

  datatype InvoiceItem = InvoiceItem(product: string, quantity: int, price: real, total: real)

  datatype Invoice = Invoice(
    id: string,
    invoiceNumber: string,
    customer: string,
    customerPAN: string,
    date: string,
    dueDate: string,
    items: seq<InvoiceItem>,
    subtotal: real,
    vat: real,
    total: real,
    status: string,
    paymentMethod: string,
    notes: string)

  function ItemTotal(it: InvoiceItem): real { it.total }

  /** Each line is quantity times price, the subtotal adds the lines, VAT is
      13 percent of it and the total is subtotal plus VAT. */
  ghost predicate Consistent(inv: Invoice)
  {
    && (forall k :: 0 <= k < |inv.items| ==> inv.items[k].total == inv.items[k].quantity as real * inv.items[k].price)
    && inv.subtotal == Seqs.Sum(inv.items, ItemTotal)
    && inv.vat == inv.subtotal * 13.0 / 100.0
    && inv.total == inv.subtotal + inv.vat
  }

  const Samples: seq<Invoice> := [
    Invoice("INV-2025-024", "INV-2025-024", "Retail Customer", "123456789", "2025-01-15", "2025-01-30",
      [InvoiceItem("Wai Wai Noodles - Chicken", 10, 25.0, 250.0), InvoiceItem("Coca Cola - 250ml", 15, 35.0, 525.0)],
      775.0, 100.75, 875.75, "paid", "khalti", "Regular customer order"),
    Invoice("INV-2025-023", "INV-2025-023", "Grocery Store", "987654321", "2025-01-15", "2025-01-30",
      [InvoiceItem("Sunsilk Shampoo - 200ml", 5, 180.0, 900.0), InvoiceItem("Tiger Biscuits", 20, 15.0, 300.0)],
      1200.0, 156.0, 1356.0, "pending", "bank_transfer", "Bulk order discount applied"),
    Invoice("INV-2025-022", "INV-2025-022", "Mini Mart", "456789123", "2025-01-14", "2025-01-29",
      [InvoiceItem("Cooking Oil - Fortune", 3, 250.0, 750.0)],
      750.0, 97.5, 847.5, "paid", "cash", ""),
    Invoice("INV-2025-021", "INV-2025-021", "Local Shop", "789123456", "2025-01-14", "2025-01-29",
      [InvoiceItem("Moong Daal", 8, 120.0, 960.0)],
      960.0, 124.8, 1084.8, "overdue", "pending", "Payment reminder sent")
  ]

  lemma TwoLines(a: InvoiceItem, b: InvoiceItem)
    ensures Seqs.Sum([a, b], ItemTotal) == a.total + b.total
  {
    assert Seqs.Sum([a, b], ItemTotal) == a.total + Seqs.Sum([a, b][1..], ItemTotal);
    assert [a, b][1..] == [b];
    OneLine(b);
  }

  lemma OneLine(a: InvoiceItem)
    ensures Seqs.Sum([a], ItemTotal) == a.total
  {
    assert Seqs.Sum([a], ItemTotal) == a.total + Seqs.Sum([a][1..], ItemTotal);
    assert [a][1..] == [];
  }

  /** Every sample invoice adds up. */
  lemma SamplesConsistent()
    ensures forall i :: 0 <= i < |Samples| ==> Consistent(Samples[i])
  {
    var s := Samples;
    TwoLines(s[0].items[0], s[0].items[1]);
    TwoLines(s[1].items[0], s[1].items[1]);
    OneLine(s[2].items[0]);
    OneLine(s[3].items[0]);
    assert Consistent(s[0]) && Consistent(s[1]) && Consistent(s[2]) && Consistent(s[3]);
  }

  // ---------------------------------------------------------------------------
  // The filter and the cards.

  function WithStatus(status: string): Invoice -> bool
  {
    (inv: Invoice) => inv.status == status
  }

  /** `!filterStatus || invoice.status === filterStatus`. */
  function Filtered(invoices: seq<Invoice>, status: string): (r: seq<Invoice>)
    ensures status == "" ==> r == invoices
    ensures status != "" ==>
      (forall i :: 0 <= i < |r| ==> r[i] in invoices && r[i].status == status)
      && forall i :: 0 <= i < |invoices| && invoices[i].status == status ==> invoices[i] in r
  {
    if status == "" then invoices else Seqs.Filter(invoices, WithStatus(status))
  }

  function CountStatus(invoices: seq<Invoice>, status: string): nat
  {
    |Seqs.Filter(invoices, WithStatus(status))|
  }

  function Total(inv: Invoice): real { inv.total }

  /** Not yet paid: pending or overdue. */
  function IsOpen(inv: Invoice): bool { inv.status == "pending" || inv.status == "overdue" }

  function TotalAmount(invoices: seq<Invoice>): real { Seqs.Sum(invoices, Total) }

  function PaidAmount(invoices: seq<Invoice>): real { Seqs.Sum(Seqs.Filter(invoices, WithStatus("paid")), Total) }

  function PendingAmount(invoices: seq<Invoice>): real { Seqs.Sum(Seqs.Filter(invoices, IsOpen), Total) }

  /** The paid, pending and overdue cards never exceed the total. */
  lemma {:induction false} CountsBound(invoices: seq<Invoice>)
    ensures CountStatus(invoices, "paid") + CountStatus(invoices, "pending") + CountStatus(invoices, "overdue")
      <= |invoices|
  {
    if invoices != [] {
      CountsBound(invoices[1..]);
    }
  }

  /** The pending amount also covers the overdue invoices, which the pending
      count leaves out. */
  lemma {:induction false} PendingAmountSplits(invoices: seq<Invoice>)
    ensures PendingAmount(invoices)
      == Seqs.Sum(Seqs.Filter(invoices, WithStatus("pending")), Total)
       + Seqs.Sum(Seqs.Filter(invoices, WithStatus("overdue")), Total)
  {
    if invoices != [] {
      PendingAmountSplits(invoices[1..]);
    }
  }

  /** With no negative totals, paid and pending money never exceed all money. */
  lemma AmountsBound(invoices: seq<Invoice>)
    requires forall i :: 0 <= i < |invoices| ==> invoices[i].total >= 0.0
    ensures PaidAmount(invoices) + PendingAmount(invoices) <= TotalAmount(invoices)
  {
    Seqs.SumDisjointFilters(invoices, WithStatus("paid"), IsOpen, Total);
  }
}
