/** Client code exercising the use cases through their specifications only.
    Each method says where its cases come from: the end-to-end scenarios,
    the unit test, or cases the tests do not cover (a failing save, a store
    that recovers, the product price bounds). */
module Scenarios {
  import opened Outcomes
  import opened OrderEntity
  import opened Repository
  import CreateOrder
  import CreateProduct

  /** The three end-to-end scenarios, then a repeated request (not a test case). */
  method OrderScenarios(now: Timestamp)
  {
    var repository := new Store<Order>(None);
    var useCase := new CreateOrder.CreateOrderUseCase(repository);

    // Three products for 120: accepted, one PENDING record with those fields.
    var r := useCase.Execute(CreateOrder.OrderRequest([1, 2, 3], 120.0), now);
    assert r == Success;
    assert |repository.stored| == 1;
    assert repository.stored[0].productIds == [1, 2, 3];
    assert repository.stored[0].totalPrice == 120.0;
    assert StatusValue(repository.stored[0].status) == "PENDING";

    // Six products: refused with the product-count message, nothing more stored.
    r := useCase.Execute(CreateOrder.OrderRequest([1, 2, 3, 4, 5, 6], 200.0), now);
    assert r == Failure(CreateOrder.TooManyProductsMessage);
    assert |repository.stored| == 1;

    // One product for 1: refused with the low-price message.
    r := useCase.Execute(CreateOrder.OrderRequest([1], 1.0), now);
    assert r == Failure(CreateOrder.PriceTooLowMessage);
    assert |repository.stored| == 1;

    // Not a test case: the same valid request again gives a second record.
    r := useCase.Execute(CreateOrder.OrderRequest([1, 2, 3], 120.0), now);
    assert |repository.stored| == 2;
  }

  /** The unit test: six products for 150 against the dummy repository. */
  method TooManyProductsUnit(now: Timestamp)
  {
    var repository := new Store<Order>(None);
    var useCase := new CreateOrder.CreateOrderUseCase(repository);

    var r := useCase.Execute(CreateOrder.OrderRequest([1, 2, 3, 4, 5, 6], 150.0), now);
    assert r == Failure(CreateOrder.TooManyProductsMessage);
    assert repository.received == [];
  }

  /** Not covered by the tests: the throwing double, declared beside the unit
      test but used by none, and a store that recovers. */
  method ThrowingOrderRepository(now: Timestamp)
  {
    var repository := new Store<Order>(Some("fail repo"));
    var useCase := new CreateOrder.CreateOrderUseCase(repository);

    // A valid request: save is reached once, and its own message is not shown.
    var r := useCase.Execute(CreateOrder.OrderRequest([7], 2.0), now);
    assert r == Failure(CreateOrder.SaveFailedMessage);
    assert |repository.received| == 1 && repository.stored == [];

    // The store recovers: the same request is now kept.
    repository.failure := None;
    r := useCase.Execute(CreateOrder.OrderRequest([7], 2.0), now);
    assert r == Success;
    assert |repository.received| == 2 && |repository.stored| == 1;
  }

  /** Not covered by the tests: the product price bounds. */
  method ProductScenarios()
  {
    var repository := new Store<CreateProduct.Product>(None);
    var useCase := new CreateProduct.CreateProductUseCase(repository);

    var r := useCase.Execute(CreateProduct.ProductRequest("", "", 0.0));
    assert r == Success;
    r := useCase.Execute(CreateProduct.ProductRequest("lamp", "desk lamp", 10000.5));
    assert r == Failure(CreateProduct.PriceTooHighMessage);
    assert repository.stored == [CreateProduct.Product("", "", 0.0)];
  }
}
