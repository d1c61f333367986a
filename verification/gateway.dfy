/** What the SSLCommerz callback routes share: the process environment they
    read, the outcome of the server-to-server validation call, and the
    external calls a handler makes, recorded in the order it makes them. */
module Gateway {
  import opened Js
  import opened Http

  /** `process.env` as the payment routes read it. */
  datatype Env = Env(
    storeId: Option<string>,        // SSL_COMMERZ_STORE_ID
    storePasswd: Option<string>,    // SSL_COMMERZ_STORE_PASSWORD
    production: bool,               // NODE_ENV === 'production'
    adminEmail: Option<string>,     // ADMIN_EMAIL
    baseUrl: Option<string>)        // BASE_URL

  predicate CredentialsPresent(env: Env)
  {
    Truthy(env.storeId) && Truthy(env.storePasswd)
  }

  /** `securepay.sslcommerz.com` or `sandbox.sslcommerz.com`. */
  datatype Endpoint = Sandbox | Live

  /** The validation call either answers, and the `status` field of its
      body decides, or throws (network failure, a non-2xx status for axios).
      A body that is not JSON stays a string without a `status` field, which
      is an answer with no `status`: not validated. */
  datatype VerifierOutcome = Replied(data: map<string, string>) | Threw(message: string)

  /** Only these two exact spellings count as a validated payment. */
  predicate IsValidated(status: Option<string>)
  {
    status == Some("VALID") || status == Some("VALIDATED")
  }

  predicate Validated(v: VerifierOutcome)
  {
    v.Replied? && IsValidated(Field(v.data, "status"))
  }

  /** An external call made while handling one request. */
  datatype Call =
    | Validate(endpoint: Endpoint, valId: string, storeId: string, storePasswd: string)
    | FetchOrderDetails(orderId: string)
    | UpdatePaymentStatus(orderId: string, tranId: string, details: map<string, string>)
    | SendMail(to: string, subject: string)

  /** A handler's answer together with the calls it made on the way. */
  datatype Handled = Handled(response: Response, calls: seq<Call>)

  function CountWrites(calls: seq<Call>): nat
  {
    if |calls| == 0 then 0
    else (if calls[0].UpdatePaymentStatus? then 1 else 0) + CountWrites(calls[1..])
  }

  predicate NoWrites(calls: seq<Call>)
  {
    forall i :: 0 <= i < |calls| ==> !calls[i].UpdatePaymentStatus?
  }

  predicate NoMail(calls: seq<Call>)
  {
    forall i :: 0 <= i < |calls| ==> !calls[i].SendMail?
  }

  predicate OnlyValidation(calls: seq<Call>)
  {
    forall i :: 0 <= i < |calls| ==> calls[i].Validate?
  }
}
