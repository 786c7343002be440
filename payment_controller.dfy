/** `PaymentController`: the four payment handlers. Each runs the service
    calls it needs in order and writes exactly one response. The payment
    service is an oracle: its answers are fixed functions, its calls are
    logged. `compareRoles` is the oracle of the same name. */
module PaymentController {
  import opened Wrappers
  import opened JsValues
  import opened ServiceErrors
  import opened Models
  import opened Http
  import PaymentValidator

  /** A call the controller makes on the payment service. */
  datatype PaymentCall =
    | CreateCall(body: Row)
    | FetchCall(fetchedId: JsValue)
    | FetchAllCall
    | UpdateCall(paymentId: string, body: Row)

  /** The payment service as the controller sees it. A missing payment is `None`. */
  class PaymentService {
    const createAnswer: Row -> Result<seq<real>, Thrown>
    const fetchAnswer: JsValue -> Result<Option<Row>, Thrown>
    const fetchAllAnswer: Result<seq<Row>, Thrown>
    const updateAnswer: (string, Row) -> Result<bool, Thrown>
    var calls: seq<PaymentCall>

    constructor (createAnswer: Row -> Result<seq<real>, Thrown>, fetchAnswer: JsValue -> Result<Option<Row>, Thrown>,
                 fetchAllAnswer: Result<seq<Row>, Thrown>, updateAnswer: (string, Row) -> Result<bool, Thrown>)
      ensures this.createAnswer == createAnswer && this.fetchAnswer == fetchAnswer
      ensures this.fetchAllAnswer == fetchAllAnswer && this.updateAnswer == updateAnswer
      ensures calls == []
    {
      this.createAnswer := createAnswer;
      this.fetchAnswer := fetchAnswer;
      this.fetchAllAnswer := fetchAllAnswer;
      this.updateAnswer := updateAnswer;
      calls := [];
    }

    method CreatePayment(body: Row) returns (r: Result<seq<real>, Thrown>)
      modifies this
      ensures calls == old(calls) + [CreateCall(body)] && r == createAnswer(body)
    {
      calls := calls + [CreateCall(body)];
      r := createAnswer(body);
    }

    method FetchPayment(paymentId: JsValue) returns (r: Result<Option<Row>, Thrown>)
      modifies this
      ensures calls == old(calls) + [FetchCall(paymentId)] && r == fetchAnswer(paymentId)
    {
      calls := calls + [FetchCall(paymentId)];
      r := fetchAnswer(paymentId);
    }

    method FetchAllPayments() returns (r: Result<seq<Row>, Thrown>)
      modifies this
      ensures calls == old(calls) + [FetchAllCall] && r == fetchAllAnswer
    {
      calls := calls + [FetchAllCall];
      r := fetchAllAnswer;
    }

    method UpdatePayment(paymentId: string, body: Row) returns (r: Result<bool, Thrown>)
      modifies this
      ensures calls == old(calls) + [UpdateCall(paymentId, body)] && r == updateAnswer(paymentId, body)
    {
      calls := calls + [UpdateCall(paymentId, body)];
      r := updateAnswer(paymentId, body);
    }
  }

  /** The response a handler wrote and the service calls it made, in order. */
  datatype Handled = Handled(reply: Reply, calls: seq<PaymentCall>)

  /** The catch blocks: `status(err.httpErrorCode || 500)` with `ServiceResponse(null, err.message)`. */
  function Failed(e: Thrown): Reply
  {
    Reply(ControllerStatus(e), Json(ErrorEnvelope(e.message)))
  }

  /** `paymentIds[0]` (undefined for an empty id list). */
  function FirstId(ids: seq<real>): JsValue
  {
    if |ids| > 0 then Num(ids[0]) else Undefined
  }

  /** The role the read endpoints require. */
  const RequiredRole: string := "yllapitaja"

  /** The full-replace check of `modifyPayment`: all nine properties truthy. */
  predicate HasAllNineFields(body: Row)
  {
    Present(body, "id") && Present(body, "payer_id") && Present(body, "confirmer_id")
    && Present(body, "created") && Present(body, "reference_number") && Present(body, "amount")
    && Present(body, "valid_until") && Present(body, "paid") && Present(body, "payment_type")
  }

  /** What `createPayment` does with a body received at time `now`. */
  function CreateOutcome(body: Row, now: int, service: PaymentService): (outcome: Handled)
  {
    match PaymentValidator.ValidatedCreate(body, now)
    case Failure(e) => Handled(Failed(e), [])
    case Success(validated) =>
      match service.createAnswer(validated)
      case Failure(e) => Handled(Failed(e), [CreateCall(validated)])
      case Success(ids) =>
        var calls := [CreateCall(validated), FetchCall(FirstId(ids))];
        match service.fetchAnswer(FirstId(ids))
        case Failure(e) => Handled(Failed(e), calls)
        case Success(payment) =>
          Handled(Reply(201, Json(ServiceResponse(OnePayment(payment), Some("Payment created"), true))), calls)
  }

  /** What `modifyPayment` does with route id `paymentId` and a body. */
  function ModifyOutcome(paymentId: string, body: Row, service: PaymentService): (outcome: Handled)
  {
    if !HasAllNineFields(body) then
      Handled(Reply(400, Json(ServiceResponse(NoData, Some("Failed to modify payment: missing request parameters"), false))), [])
    else
      match service.updateAnswer(paymentId, body)
      case Failure(e) => Handled(Failed(e), [UpdateCall(paymentId, body)])
      case Success(false) =>
        Handled(Reply(400, Json(ErrorEnvelope("Failed to modify payment"))), [UpdateCall(paymentId, body)])
      case Success(true) =>
        var calls := [UpdateCall(paymentId, body), FetchCall(Str(paymentId))];
        match service.fetchAnswer(Str(paymentId))
        case Failure(e) => Handled(Failed(e), calls)
        case Success(payment) =>
          Handled(Reply(200, Json(ServiceResponse(OnePayment(payment), Some("Payment modified"), true))), calls)
  }

  /** What `getAllPayments` does for a requester with role `role`. */
  function GetAllOutcome(role: Option<string>, compareRoles: (Option<string>, string) -> int,
                         service: PaymentService): (outcome: Handled)
  {
    if compareRoles(role, RequiredRole) < 0 then Handled(Reply(403, Json(ErrorEnvelope("Forbidden"))), [])
    else
      match service.fetchAllAnswer
      case Failure(e) => Handled(Failed(e), [FetchAllCall])
      case Success(payments) =>
        Handled(Reply(200, Json(ServiceResponse(PaymentList(payments), None, true))), [FetchAllCall])
  }

  /** What `getSinglePayment` does for a requester with role `role` and route id `paymentId`. */
  function GetSingleOutcome(role: Option<string>, compareRoles: (Option<string>, string) -> int,
                            paymentId: string, service: PaymentService): (outcome: Handled)
  {
    if compareRoles(role, RequiredRole) < 0 then Handled(Reply(403, Json(ErrorEnvelope("Forbidden"))), [])
    else
      match service.fetchAnswer(Str(paymentId))
      case Failure(e) => Handled(Failed(e), [FetchCall(Str(paymentId))])
      case Success(None) => Handled(Reply(404, Json(ErrorEnvelope("Payment not found"))), [FetchCall(Str(paymentId))])
      case Success(Some(payment)) =>
        Handled(Reply(200, Json(ServiceResponse(OnePayment(Some(payment)), None, true))), [FetchCall(Str(paymentId))])
  }

  /** `createPayment(req, res)` */
  method CreatePayment(req: Request, res: Response, service: PaymentService, now: int)
    modifies req.body, res, service
    ensures var outcome := CreateOutcome(old(req.body.fields), now, service);
      res.sent == old(res.sent) + [outcome.reply] && service.calls == old(service.calls) + outcome.calls
    ensures req.body.fields == match PaymentValidator.ValidatedCreate(old(req.body.fields), now)
                               case Failure(_) => old(req.body.fields)
                               case Success(validated) => validated
  {
    var thrown := PaymentValidator.ValidateCreate(req.body, now);
    if thrown.Some? {
      res.Send(Failed(thrown.value));
      return;
    }
    var paymentIds := service.CreatePayment(req.body.fields);
    if paymentIds.Failure? {
      res.Send(Failed(paymentIds.error));
      return;
    }
    var payment := service.FetchPayment(FirstId(paymentIds.value));
    if payment.Failure? {
      res.Send(Failed(payment.error));
      return;
    }
    res.Send(Reply(201, Json(ServiceResponse(OnePayment(payment.value), Some("Payment created"), true))));
  }

  /** `modifyPayment(req, res)` */
  method ModifyPayment(req: Request, res: Response, service: PaymentService)
    modifies res, service
    ensures var outcome := ModifyOutcome(req.idParam, req.body.fields, service);
      res.sent == old(res.sent) + [outcome.reply] && service.calls == old(service.calls) + outcome.calls
  {
    var body := req.body.fields;
    if !(Present(body, "id") && Present(body, "payer_id") && Present(body, "confirmer_id")
         && Present(body, "created") && Present(body, "reference_number") && Present(body, "amount")
         && Present(body, "valid_until") && Present(body, "paid") && Present(body, "payment_type")) {
      res.Send(Reply(400, Json(ServiceResponse(NoData, Some("Failed to modify payment: missing request parameters"), false))));
      return;
    }
    var update := service.UpdatePayment(req.idParam, body);
    if update.Failure? {
      res.Send(Failed(update.error));
    } else if update.value {
      var updatedPayment := service.FetchPayment(Str(req.idParam));
      if updatedPayment.Failure? {
        res.Send(Failed(updatedPayment.error));
      } else {
        res.Send(Reply(200, Json(ServiceResponse(OnePayment(updatedPayment.value), Some("Payment modified"), true))));
      }
    } else {
      res.Send(Reply(400, Json(ErrorEnvelope("Failed to modify payment"))));
    }
  }

  /** `getAllPayments(req, res)`, behind a middleware that attached an identity. */
  method GetAllPayments(req: Request, res: Response, service: PaymentService,
                        compareRoles: (Option<string>, string) -> int)
    requires req.authorization.Some?
    modifies res, service
    ensures var outcome := GetAllOutcome(req.authorization.value.user.role, compareRoles, service);
      res.sent == old(res.sent) + [outcome.reply] && service.calls == old(service.calls) + outcome.calls
  {
    if compareRoles(req.authorization.value.user.role, RequiredRole) < 0 {
      res.Send(Reply(403, Json(ErrorEnvelope("Forbidden"))));
      return;
    }
    var payments := service.FetchAllPayments();
    match payments
    case Failure(e) => res.Send(Failed(e));
    case Success(list) => res.Send(Reply(200, Json(ServiceResponse(PaymentList(list), None, true))));
  }

  /** `getSinglePayment(req, res)`, behind a middleware that attached an identity. */
  method GetSinglePayment(req: Request, res: Response, service: PaymentService,
                          compareRoles: (Option<string>, string) -> int)
    requires req.authorization.Some?
    modifies res, service
    ensures var outcome := GetSingleOutcome(req.authorization.value.user.role, compareRoles, req.idParam, service);
      res.sent == old(res.sent) + [outcome.reply] && service.calls == old(service.calls) + outcome.calls
  {
    if compareRoles(req.authorization.value.user.role, RequiredRole) < 0 {
      res.Send(Reply(403, Json(ErrorEnvelope("Forbidden"))));
      return;
    }
    var payment := service.FetchPayment(Str(req.idParam));
    match payment
    case Failure(e) => res.Send(Failed(e));
    case Success(None) => res.Send(Reply(404, Json(ErrorEnvelope("Payment not found"))));
    case Success(Some(p)) => res.Send(Reply(200, Json(ServiceResponse(OnePayment(Some(p)), None, true))));
  }

  /** A body the validator refuses is answered 400 "Invalid POST data" and
      nothing is inserted; an accepted one is inserted as validated (stamped
      with `now`) before anything else, and the handler succeeds exactly when
      the insert and the fetch by the first insert id both succeed, with 201. */
  lemma CreateValidatesBeforeInsert(body: Row, now: int, service: PaymentService)
    ensures var outcome := CreateOutcome(body, now, service);
      if !PaymentValidator.HasRequiredFields(body) then
        outcome == Handled(Reply(400, Json(ErrorEnvelope("Invalid POST data"))), [])
      else
        var validated := PaymentValidator.ValidatedCreate(body, now).value;
        |outcome.calls| >= 1 && outcome.calls[0] == CreateCall(validated)
        && Get(validated, "created") == Date(now)
        && (outcome.reply.body.envelope.success <==>
              service.createAnswer(validated).Success?
              && service.fetchAnswer(FirstId(service.createAnswer(validated).value)).Success?)
        && (outcome.reply.body.envelope.success ==>
              var ids := service.createAnswer(validated).value;
              outcome == Handled(Reply(201, Json(ServiceResponse(OnePayment(service.fetchAnswer(FirstId(ids)).value),
                                                                 Some("Payment created"), true))),
                                 [CreateCall(validated), FetchCall(FirstId(ids))]))
  {
    if PaymentValidator.HasRequiredFields(body) {
      PaymentValidator.AcceptedBodyShape(body, now);
    }
  }

  /** A body missing any of the nine properties is answered 400 without
      calling `updatePayment`; a complete one always calls it first. */
  lemma ModifyRequiresFullObject(paymentId: string, body: Row, service: PaymentService)
    ensures var outcome := ModifyOutcome(paymentId, body, service);
      (!HasAllNineFields(body) <==> outcome.calls == [])
      && (!HasAllNineFields(body) ==>
            outcome.reply == Reply(400, Json(ServiceResponse(NoData, Some("Failed to modify payment: missing request parameters"), false))))
      && (HasAllNineFields(body) ==> outcome.calls[0] == UpdateCall(paymentId, body))
  {
  }

  /** With a complete body, an update reporting no change gives 400 "Failed
      to modify payment"; a successful one gives 200 with the payment fetched
      again, "Payment modified" and `success` true. */
  lemma ModifyOutcomes(paymentId: string, body: Row, service: PaymentService)
    requires HasAllNineFields(body)
    ensures service.updateAnswer(paymentId, body) == Success(false) ==>
      ModifyOutcome(paymentId, body, service)
        == Handled(Reply(400, Json(ErrorEnvelope("Failed to modify payment"))), [UpdateCall(paymentId, body)])
    ensures service.updateAnswer(paymentId, body) == Success(true) && service.fetchAnswer(Str(paymentId)).Success? ==>
      ModifyOutcome(paymentId, body, service)
        == Handled(Reply(200, Json(ServiceResponse(OnePayment(service.fetchAnswer(Str(paymentId)).value), Some("Payment modified"), true))),
                   [UpdateCall(paymentId, body), FetchCall(Str(paymentId))])
  {
  }

  /** Both read endpoints answer 403 "Forbidden" before any service call when
      the requester's role compares below "yllapitaja", and otherwise call the
      service and never answer "Forbidden". */
  lemma RoleGate(role: Option<string>, compareRoles: (Option<string>, string) -> int,
                 paymentId: string, service: PaymentService)
    ensures compareRoles(role, RequiredRole) < 0 ==>
      GetAllOutcome(role, compareRoles, service) == Handled(Reply(403, Json(ErrorEnvelope("Forbidden"))), [])
      && GetSingleOutcome(role, compareRoles, paymentId, service) == Handled(Reply(403, Json(ErrorEnvelope("Forbidden"))), [])
    ensures compareRoles(role, RequiredRole) >= 0 ==>
      GetAllOutcome(role, compareRoles, service).calls == [FetchAllCall]
      && GetSingleOutcome(role, compareRoles, paymentId, service).calls == [FetchCall(Str(paymentId))]
  {
  }

  /** A permitted single fetch answers 404 "Payment not found" exactly when
      the service finds nothing, and succeeds (200, with the payment) exactly
      when it finds the payment. */
  lemma SinglePaymentFound(role: Option<string>, compareRoles: (Option<string>, string) -> int,
                           paymentId: string, service: PaymentService)
    requires compareRoles(role, RequiredRole) >= 0
    ensures var reply := GetSingleOutcome(role, compareRoles, paymentId, service).reply;
      (service.fetchAnswer(Str(paymentId)) == Success(None) ==>
         reply == Reply(404, Json(ErrorEnvelope("Payment not found"))))
      && (service.fetchAnswer(Str(paymentId)).Success? && service.fetchAnswer(Str(paymentId)).value.Some? <==>
         reply.body.envelope.success)
      && (reply.body.envelope.success ==>
         reply == Reply(200, Json(ServiceResponse(OnePayment(service.fetchAnswer(Str(paymentId)).value), None, true))))
  {
  }

  /** Every error a handler catches is answered with `err.httpErrorCode || 500`,
      no data and the error's message; a validation `ServiceError(400)` is
      therefore answered 400, unlike in the middleware. */
  lemma CaughtErrorsKeepTheirStatus(e: Thrown)
    ensures Failed(e).status == ControllerStatus(e)
    ensures Failed(e).body == Json(ServiceResponse(NoData, Some(e.message), false))
    ensures Failed(ServiceError(400, "Invalid POST data")).status == 400
  {
  }

  /** The envelope convention of a handler whose success status is
      `successStatus`: `success` only with that status and data, and no data
      on failure. */
  predicate EnvelopeConvention(reply: Reply, successStatus: int)
  {
    reply.body.Json?
    && (reply.body.envelope.success ==> reply.status == successStatus && !reply.body.envelope.data.NoData?)
    && (!reply.body.envelope.success ==> reply.body.envelope.data.NoData?)
  }

  /** `createPayment` succeeds only with 201, "Payment created" and the result
      of the fetch by the first insert id, and has no data on failure. */
  lemma CreateKeepsEnvelopeConvention(body: Row, now: int, service: PaymentService)
    ensures var reply := CreateOutcome(body, now, service).reply;
      EnvelopeConvention(reply, 201)
      && (reply.body.envelope.success ==>
            reply.body.envelope.data.OnePayment? && reply.body.envelope.message == Some("Payment created"))
  {
  }

  /** `modifyPayment` succeeds only with 200, "Payment modified" and the
      result of the refetch, and has no data on failure. */
  lemma ModifyKeepsEnvelopeConvention(paymentId: string, body: Row, service: PaymentService)
    ensures var reply := ModifyOutcome(paymentId, body, service).reply;
      EnvelopeConvention(reply, 200)
      && (reply.body.envelope.success ==>
            reply.body.envelope.data == OnePayment(service.fetchAnswer(Str(paymentId)).value)
            && reply.body.envelope.message == Some("Payment modified"))
  {
  }

  /** `getAllPayments` succeeds only with 200 and the payment list;
      `getSinglePayment` only with 200 and a payment that exists. Neither has
      data on failure. */
  lemma ReadsKeepEnvelopeConvention(role: Option<string>, compareRoles: (Option<string>, string) -> int,
                                    paymentId: string, service: PaymentService)
    ensures var reply := GetAllOutcome(role, compareRoles, service).reply;
      EnvelopeConvention(reply, 200)
      && (reply.body.envelope.success ==> reply.body.envelope.data == PaymentList(service.fetchAllAnswer.value))
    ensures var reply := GetSingleOutcome(role, compareRoles, paymentId, service).reply;
      EnvelopeConvention(reply, 200)
      && (reply.body.envelope.success ==>
            reply.body.envelope.data.OnePayment? && reply.body.envelope.data.payment.Some?)
  {
  }

  /** Unlike `getSinglePayment`, `createPayment` and `modifyPayment` do not
      check the payment they fetch afterwards: when that fetch finds nothing
      they still report success, with `data` undefined. */
  lemma SuccessWithUndefinedPayment(body: Row, now: int, paymentId: string, service: PaymentService)
    ensures PaymentValidator.HasRequiredFields(body) ==>
      var validated := PaymentValidator.ValidatedCreate(body, now).value;
      service.createAnswer(validated).Success? &&
      service.fetchAnswer(FirstId(service.createAnswer(validated).value)) == Success(None) ==>
        CreateOutcome(body, now, service).reply
          == Reply(201, Json(ServiceResponse(OnePayment(None), Some("Payment created"), true)))
    ensures HasAllNineFields(body) && service.updateAnswer(paymentId, body) == Success(true)
            && service.fetchAnswer(Str(paymentId)) == Success(None) ==>
      ModifyOutcome(paymentId, body, service).reply
        == Reply(200, Json(ServiceResponse(OnePayment(None), Some("Payment modified"), true)))
  {
  }
}
