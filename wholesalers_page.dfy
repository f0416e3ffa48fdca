/** The distributor's wholesaler list (src/components/distributor/WholesalersPage.tsx):
    three sample wholesalers, the cards and the stock badge in the details. */
module WholesalersPage {

  import Seqs

  datatype StockedProduct = StockedProduct(id: string, name: string, stock: int, lastOrder: string)

  datatype Wholesaler = Wholesaler(
    id: string,
    name: string,
    company: string,
    email: string,
    phone: string,
    address: string,
    pan: string,
    joinDate: string,
    totalOrders: int,
    totalPurchases: real,
    status: string,
    products: seq<StockedProduct>)

  const Samples: seq<Wholesaler> := [
    Wholesaler("2", "Sita Patel", "Valley Wholesale Mart", "sita@valleywholesale.com", "+977-1-4567890",
      "Thamel, Kathmandu", "401234567", "2024-01-15", 45, 125000.0, "active",
      [StockedProduct("1", "Wai Wai Noodles - Chicken", 150, "2025-01-14"),
       StockedProduct("2", "Coca Cola - 250ml", 80, "2025-01-13"),
       StockedProduct("3", "Sunsilk Shampoo - 200ml", 25, "2025-01-12")]),
    Wholesaler("4", "Priya Gurung", "Mountain Trading Co.", "priya@mountaintrading.com", "+977-1-9876543",
      "Patan, Lalitpur", "601234567", "2024-02-20", 32, 87500.0, "active",
      [StockedProduct("4", "Biscuits - Tiger", 200, "2025-01-15"),
       StockedProduct("5", "Daal - Moong", 45, "2025-01-14"),
       StockedProduct("6", "Cooking Oil - Fortune", 30, "2025-01-13")]),
    Wholesaler("5", "Ram Thapa", "Sunrise Wholesale", "ram@sunrisewholesale.com", "+977-1-5551234",
      "Bhaktapur", "701234567", "2024-03-10", 18, 52000.0, "active",
      [StockedProduct("1", "Wai Wai Noodles - Chicken", 75, "2025-01-10"),
       StockedProduct("3", "Sunsilk Shampoo - 200ml", 12, "2025-01-09")])
  ]

  // ---------------------------------------------------------------------------
  // The cards.

  function IsActive(w: Wholesaler): bool { w.status == "active" }

  function Purchases(w: Wholesaler): real { w.totalPurchases }

  datatype Cards = Cards(totalWholesalers: nat, activeWholesalers: nat, totalRevenue: real)

  function Stats(wholesalers: seq<Wholesaler>): (r: Cards)
    ensures r.totalWholesalers == |wholesalers| && r.activeWholesalers <= r.totalWholesalers
  {
    Cards(|wholesalers|, |Seqs.Filter(wholesalers, IsActive)|, Seqs.Sum(wholesalers, Purchases))
  }

  /** A new wholesaler adds one to the total and its purchases to the revenue. */
  lemma StatsAppend(wholesalers: seq<Wholesaler>, w: Wholesaler)
    ensures Stats(wholesalers + [w]).totalWholesalers == Stats(wholesalers).totalWholesalers + 1
    ensures Stats(wholesalers + [w]).activeWholesalers
      == Stats(wholesalers).activeWholesalers + (if w.status == "active" then 1 else 0)
    ensures Stats(wholesalers + [w]).totalRevenue == Stats(wholesalers).totalRevenue + w.totalPurchases
  {
    Seqs.FilterAppend(wholesalers, [w], IsActive);
    Seqs.SumAppend(wholesalers, [w], Purchases);
    assert [w][1..] == [];
  }

  /** Every sample is active. */
  lemma SamplesAllActive()
    ensures Stats(Samples).activeWholesalers == Stats(Samples).totalWholesalers == 3
  {
    Seqs.FilterKeepsAll(Samples, IsActive);
  }

  /** The number shown under "Products" for one wholesaler. */
  function ProductCount(w: Wholesaler): nat { |w.products| }

  // ---------------------------------------------------------------------------
  // The stock badge.

  datatype Badge = LowBadge | MediumBadge | GoodBadge

  function BadgeFor(stock: int): (r: Badge)
    ensures r == LowBadge <==> stock <= 30
    ensures r == MediumBadge <==> 30 < stock <= 50
    ensures r == GoodBadge <==> stock > 50
  {
    if stock <= 30 then LowBadge else if stock <= 50 then MediumBadge else GoodBadge
  }

  /** The badge never improves as stock falls. */
  lemma BadgeMonotone(a: int, b: int)
    requires a <= b
    ensures BadgeRank(BadgeFor(a)) <= BadgeRank(BadgeFor(b))
  {
  }

  function BadgeRank(b: Badge): int
  {
    match b
    case LowBadge => 0
    case MediumBadge => 1
    case GoodBadge => 2
  }

  function BadgeLabel(b: Badge): string
  {
    match b
    case LowBadge => "Low"
    case MediumBadge => "Medium"
    case GoodBadge => "Good"
  }
}
