/** The older failure callback, `src/app/api/payment/fail/route.js`. */
module LegacyFailRoute {
  import opened Js
  import opened Http
  import FailRoute

  /** POST: the failure page with the posted `tran_id` interpolated as is (a
      missing one prints "undefined") and `error` defaulting to
      "Payment failed"; a body that cannot be read as a form goes to the
      error page. The store update is only a comment. */
  function Post(body: FormBody): (r: Response)
    ensures r.Redirect? && r.status == TemporaryRedirect
    ensures r.location.path == "/payment/error" <==> body.Unparseable?
    ensures body.Unparseable? ==> r.location.query == []
    ensures body.Form? ==> r.location.path == "/payment/failed"
  {
    match body
    case Unparseable(_) => Redirect(TemporaryRedirect, Url("/payment/error", []))
    case Form(f) =>
      Redirect(TemporaryRedirect, Url("/payment/failed",
        [("transactionId", Interpolate(Field(f, "tran_id"), Undefined)),
         ("error", OrElse(Field(f, "error"), "Payment failed"))]))
  }

  /** Unlike the newer route there is no "unknown" default: a missing
      `tran_id` is written as "undefined" and an empty one as "". */
  lemma NoUnknownDefault(f: map<string, string>)
    ensures "tran_id" !in f ==> QueryValue(Post(Form(f)).location, "transactionId") == Some("undefined")
    ensures "tran_id" in f ==> QueryValue(Post(Form(f)).location, "transactionId") == Some(f["tran_id"])
    ensures QueryValue(Post(Form(f)).location, "error") == Some(OrElse(Field(f, "error"), "Payment failed"))
  {
    QueryValueAt(Post(Form(f)).location.query, "transactionId", 0);
    QueryValueAt(Post(Form(f)).location.query, "error", 1);
  }

  /** The page reads both values back as written when they are printable
      ASCII without `&`, `#`, `+` or `%` and the error does not end in a
      space (the URL parser behind `new URL` trims it); otherwise the values
      are cut as in the newer route. */
  lemma PostPageReadsFields(f: map<string, string>)
    requires SafeValue(Interpolate(Field(f, "tran_id"), Undefined))
    requires SafeValue(OrElse(Field(f, "error"), "Payment failed")) && NoTrailingSpace(OrElse(Field(f, "error"), "Payment failed"))
    ensures PageParam(Post(Form(f)).location, "transactionId") == Some(Interpolate(Field(f, "tran_id"), Undefined))
    ensures PageParam(Post(Form(f)).location, "error") == Some(OrElse(Field(f, "error"), "Payment failed"))
  {
    FailedPageReads(Interpolate(Field(f, "tran_id"), Undefined), OrElse(Field(f, "error"), "Payment failed"));
  }

  lemma PageSafe()
    ensures SafePath("/payment/failed")
  {
  }

  lemma FailedPageReads(id: string, error: string)
    requires SafeValue(id) && SafeValue(error) && NoTrailingSpace(error)
    ensures PageParam(Url("/payment/failed", [("transactionId", id), ("error", error)]), "transactionId") == Some(id)
    ensures PageParam(Url("/payment/failed", [("transactionId", id), ("error", error)]), "error") == Some(error)
  {
    PageSafe();
    FailRoute.IdKeySafe();
    FailRoute.ErrorKeySafe();
    PageReadsTwo("/payment/failed", "transactionId", id, "error", error);
  }

  /** GET: the failure page with the `transactionId` parameter; a missing one
      is written as "null" and an empty one stays empty. */
  function Get(query: map<string, string>): (r: Response)
    ensures r.Redirect? && r.status == TemporaryRedirect && r.location.path == "/payment/failed"
    ensures |r.location.query| == 1 && r.location.query[0].0 == "transactionId"
    ensures "transactionId" in query ==> QueryValue(r.location, "transactionId") == Some(query["transactionId"])
    ensures "transactionId" !in query ==> QueryValue(r.location, "transactionId") == Some("null")
  {
    Redirect(TemporaryRedirect, Url("/payment/failed", [("transactionId", Interpolate(Field(query, "transactionId"), Null))]))
  }

  /** The GET answer depends on the `transactionId` parameter alone, and
      writes the same id as the newer route exactly when that id is truthy:
      for a missing or empty one the two routes write "null" or "" against
      "unknown". */
  lemma GetReadsOnlyTransactionId(q1: map<string, string>, q2: map<string, string>)
    requires Field(q1, "transactionId") == Field(q2, "transactionId")
    ensures Get(q1) == Get(q2)
    ensures QueryValue(Get(q1).location, "transactionId") == QueryValue(FailRoute.FailedIdUrl(q1), "transactionId")
      <==> Truthy(Field(q1, "transactionId"))
  {
  }

  /** The page reads the id back as sent when it is printable ASCII without
      `&`, `#`, `+` or `%` and does not end in a space. */
  lemma GetPageReadsId(q: map<string, string>)
    requires SafeValue(Interpolate(Field(q, "transactionId"), Null)) && NoTrailingSpace(Interpolate(Field(q, "transactionId"), Null))
    ensures PageParam(Get(q).location, "transactionId") == Some(Interpolate(Field(q, "transactionId"), Null))
  {
    GetPageReadsValue(Interpolate(Field(q, "transactionId"), Null));
  }

  lemma GetPageReadsValue(id: string)
    requires SafeValue(id) && NoTrailingSpace(id)
    ensures PageParam(Url("/payment/failed", [("transactionId", id)]), "transactionId") == Some(id)
  {
    PageSafe();
    FailRoute.IdKeySafe();
    PageReadsOne("/payment/failed", "transactionId", id);
  }
}
