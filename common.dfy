/** Values shared by every part of the storefront back end: optional values,
    endpoint results with their HTTP errors, identifiers, and the
    "first matching document" search that the database's single-document
    operations (find_one, update_one, delete_one) perform. */
module Common {

  datatype Option<T> = None | Some(value: T)

  /** An HTTP error raised by an endpoint: a status code and its detail text. */
  datatype HttpError = HttpError(status: int, detail: string)

  /** What an endpoint returns: a value, or the HTTP error it raises. */
  datatype Result<T> = Ok(value: T) | Err(error: HttpError)

  /** Identifiers the server generates itself (uuid4 ids and session tokens).
      The store hands them out from a counter, so each one is fresh. */
  type Uuid = nat

  const ProductNotFound := HttpError(404, "Product not found")
  const CartEmpty := HttpError(400, "Cart is empty")
  const OrderNotFound := HttpError(404, "Order not found")
  const InvalidSignature := HttpError(400, "Invalid payment signature")
  const PaymentOrderFailed := HttpError(500, "Payment order creation failed")
  const EmailRegistered := HttpError(400, "Email already registered")
  const InvalidCredentials := HttpError(401, "Invalid credentials")
  const AuthenticationRequired := HttpError(401, "Authentication required")

  /** Index of the first element that satisfies `p`, or `|s|` when none does:
      the document a single-document query picks out of a collection. */
  function FirstIndex<T>(s: seq<T>, p: T -> bool): (i: nat)
    ensures i <= |s|
    ensures i < |s| ==> p(s[i])
    ensures forall k :: 0 <= k < i ==> !p(s[k])
    ensures i == |s| <==> forall k :: 0 <= k < |s| ==> !p(s[k])
  {
    if s == [] then 0
    else if p(s[0]) then 0
    else 1 + FirstIndex(s[1..], p)
  }
}
