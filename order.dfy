/** The `Order` entity: a five-valued status enumeration and a plain record.
    Of the storage mapping only the status column's width and default are
    kept, since they constrain the status values; the other column types and
    the generated key are left to the repository. */
module OrderEntity {
  import opened Outcomes

  /** Milliseconds since the epoch, as read from the clock by the caller. */
  type Timestamp = int

  datatype OrderStatus = Pending | Confirmed | Shipped | Delivered | Cancelled

  /** Width of the `varchar` column the status is stored in. */
  const StatusColumnLength: nat := 50

  /** The status column's default, used when an order is stored without one. */
  const DefaultStatus: OrderStatus := Pending

  /** The enumeration's members, in declaration order. */
  const AllStatuses: seq<OrderStatus> := [Pending, Confirmed, Shipped, Delivered, Cancelled]

  /** The string each enumeration member stands for; it is the member's name. */
  function StatusValue(s: OrderStatus): (v: string)
    ensures 0 < |v| <= StatusColumnLength
  {
    match s
    case Pending => "PENDING"
    case Confirmed => "CONFIRMED"
    case Shipped => "SHIPPED"
    case Delivered => "DELIVERED"
    case Cancelled => "CANCELLED"
  }

  /** Reads a stored status string back into the enumeration. */
  function ParseStatus(v: string): (r: Option<OrderStatus>)
  {
    if v == "PENDING" then Some(Pending)
    else if v == "CONFIRMED" then Some(Confirmed)
    else if v == "SHIPPED" then Some(Shipped)
    else if v == "DELIVERED" then Some(Delivered)
    else if v == "CANCELLED" then Some(Cancelled)
    else None
  }

  /** Every status survives a trip through its string value. */
  lemma StatusRoundTrip(s: OrderStatus)
    ensures ParseStatus(StatusValue(s)) == Some(s)
  {
  }

  /** Only the five status values parse, and each parses to the member it names. */
  lemma ParseStatusExact(v: string)
    ensures ParseStatus(v).Some? <==> v in {"PENDING", "CONFIRMED", "SHIPPED", "DELIVERED", "CANCELLED"}
    ensures ParseStatus(v).Some? ==> StatusValue(ParseStatus(v).value) == v
  {
  }

  /** Distinct statuses are stored as distinct strings. */
  lemma StatusValueInjective(a: OrderStatus, b: OrderStatus)
    ensures StatusValue(a) == StatusValue(b) ==> a == b
  {
  }

  /** The enumeration has exactly five members, listed once each. */
  lemma AllStatusesEnumerates()
    ensures |AllStatuses| == 5
    ensures forall s: OrderStatus :: s in AllStatuses
    ensures forall i, j :: 0 <= i < j < |AllStatuses| ==> AllStatuses[i] != AllStatuses[j]
  {
    forall s: OrderStatus ensures s in AllStatuses {
      var k := match s
        case Pending => 0
        case Confirmed => 1
        case Shipped => 2
        case Delivered => 3
        case Cancelled => 4;
      assert AllStatuses[k] == s;
    }
  }

  /** One customer order. `id` is `None` until the storage layer assigns one. */
  datatype Order = Order(
    id: Option<nat>,
    productIds: seq<int>,
    totalPrice: real,
    createdAt: Timestamp,
    status: OrderStatus)
}
