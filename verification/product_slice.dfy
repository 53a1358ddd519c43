/**
 * The product slice: `fetchProducts` unwraps the `data.data.$values`
 * envelope defensively, and the reducers follow the thunk's lifecycle.
 */
module ProductSlice {
  import opened Common

  datatype Product = Product(id: int, name: string)

  /** `response.data.data`: the envelope holding the `$values` array. */
  datatype ProductsEnvelope = ProductsEnvelope(values: Option<seq<Product>>)

  /** `response.data`. */
  datatype ProductsBody = ProductsBody(data: Option<ProductsEnvelope>)

  /** Every link of `data.data.$values` is present (an empty array still counts). */
  predicate HasValues(body: Option<ProductsBody>) {
    body.Some? && body.value.data.Some? && body.value.data.value.values.Some?
  }

  /** The product list a response body yields: the `$values` array, or [] when a link is missing. */
  function Unwrap(body: Option<ProductsBody>): (r: seq<Product>)
    ensures HasValues(body) ==> r == body.value.data.value.values.value
    ensures !HasValues(body) ==> r == []
  {
    if HasValues(body) then body.value.data.value.values.value else []
  }

  /** The envelope the backend wraps a product list in. */
  function Wrap(products: seq<Product>): (body: ProductsBody)
    ensures HasValues(Some(body))
  {
    ProductsBody(Some(ProductsEnvelope(Some(products))))
  }

  /** A wrapped list unwraps to itself, empty lists included. */
  lemma UnwrapWrap(products: seq<Product>)
    ensures Unwrap(Some(Wrap(products))) == products
  {
  }

  /** A body with `$values` is exactly a wrapped list. */
  lemma HasValuesIsWrapped(body: Option<ProductsBody>)
    requires HasValues(body)
    ensures body == Some(Wrap(Unwrap(body)))
  {
  }

  /** What the HTTP client can yield: a response body, or a thrown error. */
  datatype ProductsResponse = Received(body: Option<ProductsBody>) | RequestFailed(message: Option<string>)

  datatype ProductsOutcome = ProductsFulfilled(products: seq<Product>) | ProductsRejected(message: Option<string>)

  /** `fetchProducts`: a received body always fulfils, with the unwrapped list. */
  function FetchProducts(response: ProductsResponse): (r: ProductsOutcome)
    ensures r.ProductsFulfilled? <==> response.Received?
    ensures response.Received? ==> r.products == Unwrap(response.body)
    ensures response.RequestFailed? ==> r.message == response.message
  {
    match response
    case Received(body) => ProductsFulfilled(Unwrap(body))
    case RequestFailed(message) => ProductsRejected(message)
  }

  datatype ProductState = ProductState(products: seq<Product>, loading: bool, error: Option<string>)

  const Initial: ProductState := ProductState([], false, None)

  lemma InitialIsEmpty()
    ensures Initial.products == [] && !Initial.loading && Initial.error.None?
  {
  }

  function Pending(s: ProductState): (r: ProductState)
    ensures r.loading && r.error.None? && r.products == s.products
  {
    s.(loading := true, error := None)
  }

  function Fulfilled(s: ProductState, payload: seq<Product>): (r: ProductState)
    ensures r.products == payload && !r.loading && r.error.None?
  {
    s.(loading := false, products := payload, error := None)
  }

  /** A failure also throws away the list shown so far. */
  function Rejected(s: ProductState, message: Option<string>): (r: ProductState)
    ensures r.products == [] && !r.loading && r.error == message
  {
    s.(loading := false, error := message, products := [])
  }

  function Settle(s: ProductState, outcome: ProductsOutcome): ProductState {
    match outcome
    case ProductsFulfilled(products) => Fulfilled(s, products)
    case ProductsRejected(message) => Rejected(s, message)
  }

  /**
   * One whole fetch: nothing is loading afterwards; the list is the
   * unwrapped body on a response and empty on a thrown error, and the error
   * is set exactly in the second case.
   */
  lemma FetchLifecycle(s: ProductState, response: ProductsResponse)
    ensures var r := Settle(Pending(s), FetchProducts(response));
      && !r.loading
      && (response.Received? ==> r.products == Unwrap(response.body) && r.error.None?)
      && (response.RequestFailed? ==> r.products == [] && r.error == response.message)
  {
  }
}
