/** The product-creation use case: the same pattern as order creation, with
    two guards on the price and no check on the title or the description.
    The `Product` class itself is not part of this model; it is reduced to
    the three fields its constructor receives. */
module CreateProduct {
  import opened Outcomes
  import opened Repository

  const MinPrice: real := 0.0
  const MaxPrice: real := 10000.0

  const NegativePriceMessage: string := "le prix doit être supérieur à 0"
  const PriceTooHighMessage: string := "le prix doit être inférieur à 10000"
  const SaveFailedMessage: string := "erreur lors de la création du produit"

  datatype Product = Product(title: string, description: string, price: real)

  /** The body `execute` receives. */
  datatype ProductRequest = ProductRequest(title: string, description: string, price: real)

  /** The only business rule: a price from 0 to 10000, both bounds included. */
  predicate PriceInBounds(price: real)
  {
    MinPrice <= price <= MaxPrice
  }

  /** The guard chain: a negative price is reported before a too-high one. */
  function Validate(req: ProductRequest): (r: Option<string>)
    ensures r.None? <==> PriceInBounds(req.price)
    ensures r == Some(NegativePriceMessage) <==> req.price < MinPrice
    ensures r == Some(PriceTooHighMessage) <==> req.price > MaxPrice
  {
    if req.price < MinPrice then Some(NegativePriceMessage)
    else if req.price > MaxPrice then Some(PriceTooHighMessage)
    else None
  }

  /** The title and the description play no part in the decision: two
      requests with the same price are accepted or refused alike. */
  lemma TitleAndDescriptionUnchecked(a: ProductRequest, b: ProductRequest)
    requires a.price == b.price
    ensures Validate(a) == Validate(b)
  {
  }

  /** Both ends of the price range are accepted, for any title and description. */
  lemma PriceBoundsInclusive(title: string, description: string)
    ensures Validate(ProductRequest(title, description, MinPrice)).None?
    ensures Validate(ProductRequest(title, description, MaxPrice)).None?
  {
  }

  /** The guards followed by the construction of the product handed to `save`. */
  function Prepare(req: ProductRequest): (r: Result<Product>)
    ensures r.Ok? <==> PriceInBounds(req.price)
    ensures r.Ok? ==> r.value.title == req.title && r.value.description == req.description &&
                      r.value.price == req.price
    ensures r.Err? ==> Validate(req) == Some(r.message)
  {
    match Validate(req)
    case Some(message) => Err(message)
    case None => Ok(Product(req.title, req.description, req.price))
  }

  class CreateProductUseCase {
    const productRepository: Store<Product>

    constructor (productRepository: Store<Product>)
      ensures this.productRepository == productRepository
    {
      this.productRepository := productRepository;
    }

    /** Validates the price, builds the product and saves it once; a throwing
        `save` is reported with a fixed message. */
    method Execute(request: ProductRequest) returns (r: Outcome)
      modifies productRepository
      ensures !PriceInBounds(request.price) ==>
                r == Failure(Validate(request).value) && unchanged(productRepository)
      ensures productRepository.failure == old(productRepository.failure)
      ensures PriceInBounds(request.price) ==>
                productRepository.received == old(productRepository.received) + [Prepare(request).value]
      ensures PriceInBounds(request.price) ==>
                productRepository.stored ==
                  if productRepository.failure.None? then old(productRepository.stored) + [Prepare(request).value]
                  else old(productRepository.stored)
      ensures PriceInBounds(request.price) ==>
                r == if productRepository.failure.None? then Success else Failure(SaveFailedMessage)
    {
      if request.price < MinPrice {
        return Failure(NegativePriceMessage);
      }
      if request.price > MaxPrice {
        return Failure(PriceTooHighMessage);
      }

      var product := Product(request.title, request.description, request.price);

      var error := productRepository.Save(product);
      if error.Some? {
        return Failure(SaveFailedMessage);
      }
      return Success;
    }
  }
}
