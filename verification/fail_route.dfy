/** The gateway's failure callback, `src/app/api/payment/fail/route.ts`. */
module FailRoute {
  import opened Js
  import opened Http
  import opened Strings

  /** The failure page the POST writes for a readable form: the posted
      `tran_id` and `error`, each replaced by its default when falsy. */
  function FailedUrl(f: map<string, string>): Url
  {
    Url("/payment-failed",
      [("transactionId", OrElse(Field(f, "tran_id"), "unknown")),
       ("error", OrElse(Field(f, "error"), "Payment failed"))])
  }

  /** POST: the failure page, or the error page when the body cannot be read
      as a form or when `new Response` refuses the failure page's text (both
      throw inside the `try`). No validation call, no store write. */
  function Post(body: FormBody): (r: Response)
    ensures r.Redirect? && r.status == SeeOther
    ensures r.location.path == "/payment/error" <==> body.Unparseable? || !Sendable(FailedUrl(body.fields))
    ensures r.location.path == "/payment/error" ==> r.location.query == []
    ensures body.Form? && Sendable(FailedUrl(body.fields)) ==> r.location == FailedUrl(body.fields)
  {
    match body
    case Unparseable(_) => Redirect(SeeOther, Url("/payment/error", []))
    case Form(f) =>
      if Sendable(FailedUrl(f)) then Redirect(SeeOther, FailedUrl(f))
      else Redirect(SeeOther, Url("/payment/error", []))
  }

  /** The redirect for a readable form depends on nothing but its `tran_id`
      and `error` fields, each replaced by its default when falsy; when it
      can be sent, it writes them as its two parameters. */
  lemma PostReadsOnlyTwoFields(f1: map<string, string>, f2: map<string, string>)
    requires OrElse(Field(f1, "tran_id"), "unknown") == OrElse(Field(f2, "tran_id"), "unknown")
    requires OrElse(Field(f1, "error"), "Payment failed") == OrElse(Field(f2, "error"), "Payment failed")
    ensures Post(Form(f1)) == Post(Form(f2))
    ensures Sendable(FailedUrl(f1)) ==>
      && QueryValue(Post(Form(f1)).location, "transactionId") == Some(OrElse(Field(f1, "tran_id"), "unknown"))
      && QueryValue(Post(Form(f1)).location, "error") == Some(OrElse(Field(f1, "error"), "Payment failed"))
  {
    QueryValueAt(FailedUrl(f1).query, "transactionId", 0);
    QueryValueAt(FailedUrl(f1).query, "error", 1);
  }

  /** The page reads both values back as posted when they are printable
      ASCII without `&`, `#`, `+` or `%`, and the error does not end in a
      space. */
  lemma PostPageReadsFields(f: map<string, string>)
    requires SafeValue(OrElse(Field(f, "tran_id"), "unknown"))
    requires SafeValue(OrElse(Field(f, "error"), "Payment failed")) && NoTrailingSpace(OrElse(Field(f, "error"), "Payment failed"))
    ensures Post(Form(f)).location.path == "/payment-failed"
    ensures PageParam(Post(Form(f)).location, "transactionId") == Some(OrElse(Field(f, "tran_id"), "unknown"))
    ensures PageParam(Post(Form(f)).location, "error") == Some(OrElse(Field(f, "error"), "Payment failed"))
  {
    FailedPageReads(OrElse(Field(f, "tran_id"), "unknown"), OrElse(Field(f, "error"), "Payment failed"));
  }

  /** The page and parameter names are safe text. */
  lemma PageSafe()
    ensures SafePath("/payment-failed")
  {
  }

  lemma IdKeySafe()
    ensures SafeKey("transactionId")
  {
  }

  lemma ErrorKeySafe()
    ensures SafeKey("error") && "transactionId" != "error"
  {
  }

  lemma FailedPageReads(id: string, error: string)
    requires SafeValue(id) && SafeValue(error) && NoTrailingSpace(error)
    ensures Sendable(Url("/payment-failed", [("transactionId", id), ("error", error)]))
    ensures PageParam(Url("/payment-failed", [("transactionId", id), ("error", error)]), "transactionId") == Some(id)
    ensures PageParam(Url("/payment-failed", [("transactionId", id), ("error", error)]), "error") == Some(error)
  {
    PageSafe();
    IdKeySafe();
    ErrorKeySafe();
    PageReadsTwo("/payment-failed", "transactionId", id, "error", error);
  }

  /** The `error` text is interpolated without encoding: a posted error
      `a&b=c` reaches the page as the error `a` and a stray parameter `b`. */
  lemma UnencodedErrorSplits(f: map<string, string>, a: string, b: string, c: string)
    requires Field(f, "error") == Some(a + "&" + b + "=" + c)
    requires SafeValue(OrElse(Field(f, "tran_id"), "unknown")) && SafeValue(a) && SafeValue(c) && NoTrailingSpace(c)
    requires SafeKey(b) && b != "transactionId" && b != "error"
    ensures Post(Form(f)).location.path == "/payment-failed"
    ensures PageParam(Post(Form(f)).location, "error") == Some(a)
    ensures PageParam(Post(Form(f)).location, b) == Some(c)
    ensures QueryValue(Post(Form(f)).location, "error") != Some(a)
  {
    var id := OrElse(Field(f, "tran_id"), "unknown");
    PageSafe();
    IdKeySafe();
    ErrorKeySafe();
    AmpersandSplitsValue("/payment-failed", "transactionId", id, "error", a, b, c);
    QueryValueAt(FailedUrl(f).query, "error", 1);
    assert |a + "&" + b + "=" + c| > |a|;
  }

  /** A form whose `error` holds a character above U+00FF (any Bengali
      letter, say) makes `new Response` throw inside the `try`, so the
      gateway's failure ends on the error page. */
  lemma WideErrorReachesErrorPage(f: map<string, string>, ch: char)
    requires "error" in f && ch in f["error"] && ch > '\U{FF}'
    ensures Post(Form(f)) == Redirect(SeeOther, Url("/payment/error", []))
  {
    WideCharUnsendable(FailedUrl(f), 1, ch);
  }

  /** The failure page the GET writes: the `transactionId` parameter, or
      "unknown" when it is falsy. */
  function FailedIdUrl(query: map<string, string>): Url
  {
    Url("/payment-failed", [("transactionId", OrElse(Field(query, "transactionId"), "unknown"))])
  }

  /** GET: the failure page with the `transactionId` parameter, or "unknown"
      when it is falsy; it never carries an empty id. No `try` guards the
      `Response`, so a text the header check refuses is the framework's 500. */
  function Get(query: map<string, string>): (r: Response)
    ensures r.Redirect? || r.UncaughtError?
    ensures r.Redirect? <==> Sendable(FailedIdUrl(query))
    ensures r.Redirect? ==> r.status == SeeOther && r.location.path == "/payment-failed"
    ensures r.Redirect? ==> |r.location.query| == 1 && r.location.query[0].0 == "transactionId"
    ensures r.Redirect? ==> var id := QueryValue(r.location, "transactionId");
      id.Some? && id.value != "" &&
      (Truthy(Field(query, "transactionId")) ==> id == Field(query, "transactionId")) &&
      (!Truthy(Field(query, "transactionId")) ==> id == Some("unknown"))
  {
    if Sendable(FailedIdUrl(query)) then Redirect(SeeOther, FailedIdUrl(query)) else UncaughtError
  }

  /** The GET answer depends on the `transactionId` parameter alone, and
      writes the same id as the POST does for a form posting that id. */
  lemma GetReadsOnlyTransactionId(q1: map<string, string>, q2: map<string, string>, f: map<string, string>)
    requires Field(q1, "transactionId") == Field(q2, "transactionId")
    requires Field(f, "tran_id") == Field(q1, "transactionId")
    ensures Get(q1) == Get(q2)
    ensures QueryValue(FailedIdUrl(q1), "transactionId") == QueryValue(FailedUrl(f), "transactionId")
  {
    QueryValueAt(FailedUrl(f).query, "transactionId", 0);
  }

  /** The page reads the id back as sent when it is printable ASCII without
      `&`, `#`, `+` or `%` and does not end in a space. */
  lemma GetPageReadsId(q: map<string, string>)
    requires SafeValue(OrElse(Field(q, "transactionId"), "unknown")) && NoTrailingSpace(OrElse(Field(q, "transactionId"), "unknown"))
    ensures Get(q).Redirect?
    ensures PageParam(Get(q).location, "transactionId") == Some(OrElse(Field(q, "transactionId"), "unknown"))
  {
    var id := OrElse(Field(q, "transactionId"), "unknown");
    PageSafe();
    IdKeySafe();
    PageReadsOne("/payment-failed", "transactionId", id);
    assert FailedIdUrl(q) == Url("/payment-failed", [("transactionId", id)]);
  }

  /** An id holding a character above U+00FF gets the framework's 500. */
  lemma WideIdIsUncaught(q: map<string, string>, ch: char)
    requires "transactionId" in q && ch in q["transactionId"] && ch > '\U{FF}'
    ensures Get(q) == UncaughtError
  {
    WideCharUnsendable(FailedIdUrl(q), 0, ch);
  }
}
