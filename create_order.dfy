/** The order-creation use case: four fail-fast guards on the request, then
    a PENDING order handed once to the injected repository, whose failure is
    replaced by one fixed message. */
module CreateOrder {
  import opened Outcomes
  import opened OrderEntity
  import opened Repository

  const MinProducts: nat := 1
  const MaxProducts: nat := 5
  const MinTotalPrice: real := 2.0
  const MaxTotalPrice: real := 500.0

  const TooFewProductsMessage: string := "Une commande doit contenir 1 produit au minimum"
  const TooManyProductsMessage: string := "Une commande ne peut contenir plus de 5 produits"
  const PriceTooLowMessage: string := "Le prix total doit être supérieur ou égal à 2€"
  const PriceTooHighMessage: string := "Le prix total doit être inférieur ou égal à 500€"
  const SaveFailedMessage: string := "Erreur lors de la création de la commande"

  /** The body `execute` receives. */
  datatype OrderRequest = OrderRequest(productIds: seq<int>, totalPrice: real)

  /** The business rules: 1 to 5 products and a total price from 2 to 500, all bounds included. */
  predicate InBounds(req: OrderRequest)
  {
    MinProducts <= |req.productIds| <= MaxProducts &&
    MinTotalPrice <= req.totalPrice <= MaxTotalPrice
  }

  /** The guard chain: the message of the first rule broken, in the order
      product count low, product count high, price low, price high. */
  function Validate(req: OrderRequest): (r: Option<string>)
    ensures r.None? <==> InBounds(req)
    ensures r.Some? ==> r.value in {TooFewProductsMessage, TooManyProductsMessage, PriceTooLowMessage, PriceTooHighMessage}
  {
    if |req.productIds| < MinProducts then Some(TooFewProductsMessage)
    else if |req.productIds| > MaxProducts then Some(TooManyProductsMessage)
    else if req.totalPrice < MinTotalPrice then Some(PriceTooLowMessage)
    else if req.totalPrice > MaxTotalPrice then Some(PriceTooHighMessage)
    else None
  }

  /** A product-count violation is reported whatever the price, and a price
      message only ever when the product count is right. */
  lemma ProductCountReportedFirst(req: OrderRequest)
    ensures |req.productIds| < MinProducts ==> Validate(req) == Some(TooFewProductsMessage)
    ensures |req.productIds| > MaxProducts ==> Validate(req) == Some(TooManyProductsMessage)
    ensures Validate(req) in {Some(PriceTooLowMessage), Some(PriceTooHighMessage)} ==>
              MinProducts <= |req.productIds| <= MaxProducts
  {
  }

  /** Once the product count is right, a price below 2 or above 500 is reported as such. */
  lemma PriceReportedWhenCountValid(req: OrderRequest)
    requires MinProducts <= |req.productIds| <= MaxProducts
    ensures req.totalPrice < MinTotalPrice ==> Validate(req) == Some(PriceTooLowMessage)
    ensures req.totalPrice > MaxTotalPrice ==> Validate(req) == Some(PriceTooHighMessage)
  {
  }

  /** Each of the five messages names one failure: no two are equal. */
  lemma MessagesDistinct()
    ensures |{TooFewProductsMessage, TooManyProductsMessage, PriceTooLowMessage, PriceTooHighMessage, SaveFailedMessage}| == 5
  {
  }

  /** What holds of every order the use case builds. */
  predicate IsCreatedOrder(o: Order)
  {
    o.id.None? && o.status == Pending &&
    InBounds(OrderRequest(o.productIds, o.totalPrice))
  }

  /** The use case sets PENDING itself; it is also the status column's default. */
  lemma CreatedOrderHasDefaultStatus(o: Order)
    requires IsCreatedOrder(o)
    ensures o.status == DefaultStatus
  {
  }

  /** The guards followed by the construction of the order handed to `save`. */
  function Prepare(req: OrderRequest, now: Timestamp): (r: Result<Order>)
    ensures r.Ok? <==> InBounds(req)
    ensures r.Ok? ==> IsCreatedOrder(r.value) && r.value.createdAt == now &&
                      r.value.productIds == req.productIds && r.value.totalPrice == req.totalPrice
    ensures r.Err? ==> Validate(req) == Some(r.message)
  {
    match Validate(req)
    case Some(message) => Err(message)
    case None => Ok(Order(None, req.productIds, req.totalPrice, now, Pending))
  }

  /** One call of `execute`: the request, the clock reading it is stamped
      with, and whether the repository's `save` throws on this call. */
  datatype Invocation = Invocation(request: OrderRequest, now: Timestamp, saveThrows: bool)

  /** The repository's contents after one call. */
  function StoredAfter(stored: seq<Order>, call: Invocation): (s: seq<Order>)
  {
    match Prepare(call.request, call.now)
    case Err(_) => stored
    case Ok(order) => if call.saveThrows then stored else stored + [order]
  }

  /** The repository's contents after a series of calls against it. */
  function StoredAfterAll(stored: seq<Order>, calls: seq<Invocation>): (s: seq<Order>)
    decreases |calls|
  {
    if calls == [] then stored
    else StoredAfterAll(StoredAfter(stored, calls[0]), calls[1..])
  }

  /** The orders built from the calls that pass the guards and whose `save`
      returned, in call order. */
  function SavedOrders(calls: seq<Invocation>): (saved: seq<Order>)
    decreases |calls|
  {
    if calls == [] then []
    else
      match Prepare(calls[0].request, calls[0].now)
      case Err(_) => SavedOrders(calls[1..])
      case Ok(order) =>
        if calls[0].saveThrows then SavedOrders(calls[1..]) else [order] + SavedOrders(calls[1..])
  }

  /** A repository that only holds orders the use case could build keeps
      holding only such orders, whatever is requested of it and whichever
      of its `save` calls throw. */
  lemma {:induction false} SessionStoresOnlyCreatedOrders(stored: seq<Order>, calls: seq<Invocation>)
    requires forall o :: o in stored ==> IsCreatedOrder(o)
    ensures forall o :: o in StoredAfterAll(stored, calls) ==> IsCreatedOrder(o)
    decreases |calls|
  {
    if calls != [] {
      SessionStoresOnlyCreatedOrders(StoredAfter(stored, calls[0]), calls[1..]);
    }
  }

  /** A series of calls appends exactly the orders of the accepted requests
      whose `save` returned, in call order, duplicates included. */
  lemma {:induction false} SessionAppendsSavedOrders(stored: seq<Order>, calls: seq<Invocation>)
    ensures StoredAfterAll(stored, calls) == stored + SavedOrders(calls)
    decreases |calls|
  {
    if calls != [] {
      SessionAppendsSavedOrders(StoredAfter(stored, calls[0]), calls[1..]);
      match Prepare(calls[0].request, calls[0].now)
      case Err(_) =>
      case Ok(order) =>
        if !calls[0].saveThrows {
          assert stored + [order] + SavedOrders(calls[1..]) == stored + ([order] + SavedOrders(calls[1..]));
        }
    }
  }

  /** Lifts `Execute`'s per-call promise that a throwing `save` keeps
      nothing to a series: if `save` throws on every call, the contents
      stay as they were. */
  lemma {:induction false} SessionWithThrowingRepository(stored: seq<Order>, calls: seq<Invocation>)
    requires forall i :: 0 <= i < |calls| ==> calls[i].saveThrows
    ensures StoredAfterAll(stored, calls) == stored
    decreases |calls|
  {
    if calls != [] {
      SessionWithThrowingRepository(StoredAfter(stored, calls[0]), calls[1..]);
    }
  }

  /** Two identical valid requests whose `save` returns leave two records
      behind: there is no deduplication. */
  lemma RepeatedRequestStoredTwice(stored: seq<Order>, call: Invocation)
    requires InBounds(call.request) && !call.saveThrows
    ensures |StoredAfterAll(stored, [call, call])| == |stored| + 2
  {
    var calls := [call, call];
    SessionAppendsSavedOrders(stored, calls);
    assert calls[1..] == [call] && [call][1..] == [];
    var order := Prepare(call.request, call.now).value;
    assert SavedOrders([call]) == [order] + SavedOrders([]);
    assert SavedOrders(calls) == [order] + SavedOrders([call]);
  }

  class CreateOrderUseCase {
    const orderRepository: Store<Order>

    constructor (orderRepository: Store<Order>)
      ensures this.orderRepository == orderRepository
    {
      this.orderRepository := orderRepository;
    }

    /** Validates the request, builds a PENDING order stamped with `now` and
        saves it once; a throwing `save` is reported with a fixed message. */
    method Execute(request: OrderRequest, now: Timestamp) returns (r: Outcome)
      modifies orderRepository
      ensures !InBounds(request) ==>
                r == Failure(Validate(request).value) && unchanged(orderRepository)
      ensures InBounds(request) ==>
                orderRepository.received == old(orderRepository.received) + [Prepare(request, now).value]
      ensures InBounds(request) ==>
                r == if orderRepository.failure.None? then Success else Failure(SaveFailedMessage)
      ensures orderRepository.failure == old(orderRepository.failure)
      ensures orderRepository.stored ==
                StoredAfter(old(orderRepository.stored), Invocation(request, now, orderRepository.failure.Some?))
    {
      if |request.productIds| < MinProducts {
        return Failure(TooFewProductsMessage);
      }
      if |request.productIds| > MaxProducts {
        return Failure(TooManyProductsMessage);
      }
      if request.totalPrice < MinTotalPrice {
        return Failure(PriceTooLowMessage);
      }
      if request.totalPrice > MaxTotalPrice {
        return Failure(PriceTooHighMessage);
      }

      var order := Order(None, request.productIds, request.totalPrice, now, Pending);

      var error := orderRepository.Save(order);
      if error.Some? {
        return Failure(SaveFailedMessage);
      }
      return Success;
    }
  }
}
