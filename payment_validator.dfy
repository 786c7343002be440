/** `PaymentValidator`: the required-field check on a payment creation body,
    which then strips a client-supplied id and stamps the creation time in
    place. The clock (`new Date()`) is the parameter `now`. */
module PaymentValidator {
  import opened Wrappers
  import opened JsValues
  import opened ServiceErrors
  import opened Models
  import opened Http

  /** The four properties a creation body must carry with a truthy value. */
  predicate HasRequiredFields(body: Row)
  {
    Present(body, "payer_id") && Present(body, "amount")
    && Present(body, "valid_until") && Present(body, "payment_type")
  }

  /** The body `validateCreate` leaves behind, or the error it throws. */
  function ValidatedCreate(body: Row, now: int): (validated: Result<Row, Thrown>)
  {
    if !HasRequiredFields(body) then Failure(ServiceError(400, "Invalid POST data"))
    else
      var stripped := if Present(body, "id") then body - {"id"} else body;
      Success(stripped["created" := Date(now)])
  }

  /** `validateCreate(bodyData)`: throws before touching the body, or strips a
      truthy `id` and overwrites `created`. */
  method ValidateCreate(body: Body, now: int) returns (thrown: Option<Thrown>)
    modifies body
    ensures match ValidatedCreate(old(body.fields), now)
      case Failure(e) => thrown == Some(e) && body.fields == old(body.fields)
      case Success(after) => thrown == None && body.fields == after
  {
    if !Present(body.fields, "payer_id") || !Present(body.fields, "amount")
       || !Present(body.fields, "valid_until") || !Present(body.fields, "payment_type") {
      return Some(ServiceError(400, "Invalid POST data"));
    }
    if Present(body.fields, "id") {
      body.fields := body.fields - {"id"};
    }
    body.fields := body.fields["created" := Date(now)];
    return None;
  }

  /** `validateUpdate(dataId, newData, validator)` accepts everything and changes nothing. */
  method ValidateUpdate(dataId: int, newData: Body, validator: UserData) returns (thrown: Option<Thrown>)
    ensures thrown == None
  {
    thrown := None;
  }

  /** A body is refused exactly when one of the four required properties is
      falsy, and always with `ServiceError(400, "Invalid POST data")`. */
  lemma RejectsExactlyIncompleteBodies(body: Row, now: int)
    ensures ValidatedCreate(body, now).Failure? <==> !HasRequiredFields(body)
    ensures ValidatedCreate(body, now).Failure? ==>
      ValidatedCreate(body, now).error == ServiceError(400, "Invalid POST data")
  {
  }

  /** Falsiness, not absence, is checked: an amount of 0 (or an empty payer id)
      is refused like a missing one. */
  lemma FalsyCountsAsMissing(body: Row, now: int)
    requires Get(body, "amount") == Num(0.0) || Get(body, "payer_id") == Str("")
    ensures ValidatedCreate(body, now) == Failure(ServiceError(400, "Invalid POST data"))
  {
  }

  /** An accepted body has `created` set to the current time whatever the
      client sent, keeps `id` only when it was falsy, and keeps every other
      property as it was. */
  lemma AcceptedBodyShape(body: Row, now: int)
    requires HasRequiredFields(body)
    ensures ValidatedCreate(body, now).Success?
    ensures var after := ValidatedCreate(body, now).value;
      Get(after, "created") == Date(now)
      && ("id" in after <==> "id" in body && !Truthy(body["id"]))
      && ("id" in after ==> after["id"] == body["id"])
      && forall k :: k != "id" && k != "created" ==> Get(after, k) == Get(body, k) && (k in after <==> k in body)
  {
  }

  /** Validating an accepted body again at the same instant changes nothing:
      the stamp is the same and no truthy `id` is left to strip. */
  lemma {:induction false} ValidateCreateIdempotent(body: Row, now: int)
    requires HasRequiredFields(body)
    ensures ValidatedCreate(ValidatedCreate(body, now).value, now) == ValidatedCreate(body, now)
  {
    var after := ValidatedCreate(body, now).value;
    AcceptedBodyShape(body, now);
    assert HasRequiredFields(after) by {
      assert Get(after, "payer_id") == Get(body, "payer_id");
      assert Get(after, "amount") == Get(body, "amount");
      assert Get(after, "valid_until") == Get(body, "valid_until");
      assert Get(after, "payment_type") == Get(body, "payment_type");
    }
    assert !Present(after, "id");
    assert after["created" := Date(now)] == after;
  }
}
