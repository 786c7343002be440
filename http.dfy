/** The request and response objects of a handler, and the response envelope
    `ServiceResponse(data, message, success)`. */
module Http {
  import opened Wrappers
  import opened JsValues
  import opened Models

  /** What an envelope carries in `data`: `null`, the (possibly `undefined`)
      result of a single payment fetch, or a list of payments. */
  datatype Payload = NoData | OnePayment(payment: Option<Row>) | PaymentList(payments: seq<Row>)

  /** `new ServiceResponse(data, message, success)`; `success` defaults to false. */
  datatype ServiceResponse = ServiceResponse(data: Payload, message: Option<string>, success: bool)

  /** `new ServiceResponse(null, message)` */
  function ErrorEnvelope(message: string): ServiceResponse
  {
    ServiceResponse(NoData, Some(message), false)
  }

  /** A JSON envelope (`res.json`) or the rendered error view (`res.render`). */
  datatype ReplyBody = Json(envelope: ServiceResponse) | View(template: string, error: string)

  /** One written response: `res.status(status)` followed by its body. */
  datatype Reply = Reply(status: int, body: ReplyBody)

  /** The response object; `sent` lists every response written to it. */
  class Response {
    var sent: seq<Reply>

    constructor ()
      ensures sent == []
    {
      sent := [];
    }

    /** `res.status(reply.status).json(...)` or `.render(...)` */
    method Send(reply: Reply)
      modifies this
      ensures sent == old(sent) + [reply]
    {
      sent := sent + [reply];
    }
  }

  /** A request body object (`req.body`), which a validator may change in place. */
  class Body {
    var fields: Row

    constructor (fields: Row)
      ensures this.fields == fields
    {
      this.fields := fields;
    }
  }

  /** The request: the `Authorization` header (`req.get("authorization")`),
      the `token` cookie (`req.cookies.token`), the `:id` route parameter,
      the body, and the identity a middleware attaches. */
  class Request {
    const authorizationHeader: Option<string>
    const tokenCookie: Option<string>
    const idParam: string
    const body: Body
    var authorization: Option<Authorization>

    constructor (authorizationHeader: Option<string>, tokenCookie: Option<string>, idParam: string, body: Body)
      ensures this.authorizationHeader == authorizationHeader && this.tokenCookie == tokenCookie
      ensures this.idParam == idParam && this.body == body && authorization == None
    {
      this.authorizationHeader := authorizationHeader;
      this.tokenCookie := tokenCookie;
      this.idParam := idParam;
      this.body := body;
      authorization := None;
    }
  }
}
