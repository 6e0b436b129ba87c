/**
 * `POST` of app/api/buyout-inquiry/route.ts: read the JSON body, parse it
 * with `buyoutInquirySchema`, create one `buyoutInquiry` document, answer.
 * The CMS client, the clock reading `now`, the outcome of `create` and a body
 * that is not JSON (`None`) are made explicit as in `WaitlistRoute`.
 */
module BuyoutInquiryRoute {
  import opened Common
  import opened Json
  import opened Http
  import opened Validations
  import ContentStore

  const InvalidSubmission: Response := ErrorResponse(400, "Invalid submission")
  const FailedToSubmit: Response := ErrorResponse(500, "Failed to submit")

  /** The fields of the created document: no `status` and no `notes`, which only the Studio sets. */
  const RecordFields: set<string> :=
    {"_type", "name", "email", "phone", "company", "preferredDates", "groupSize", "eventType",
     "additionalDetails", "submittedAt"}

  /** The object passed to `client.create` for a parsed payload. */
  function Record(d: BuyoutInquiryData, submittedAt: string): (doc: ContentStore.Document)
    ensures doc.Keys == RecordFields
  {
    map[
      "_type" := JStr("buyoutInquiry"),
      "name" := JStr(d.name),
      "email" := JStr(d.email),
      "phone" := JStr(d.phone),
      "company" := JStr(d.company),
      "preferredDates" := JStr(d.preferredDates),
      "groupSize" := JNum(d.groupSize),
      "eventType" := JStr(d.eventType),
      "additionalDetails" := JStr(d.additionalDetails),
      "submittedAt" := JStr(submittedAt)
    ]
  }

  /** The document the route hands to `create`, if it gets that far. */
  function Attempted(body: Option<Json>, now: string): (a: Option<ContentStore.Document>)
    ensures a.Some? <==> body.Some? && ValidateBuyoutInquiry(body.value).Success?
    ensures a.Some? ==> a.value.Keys == RecordFields && a.value["submittedAt"] == JStr(now)
  {
    if body.None? then None
    else
      match ValidateBuyoutInquiry(body.value)
      case Failure(_) => None
      case Success(d) => Some(Record(d, now))
  }

  /** The response for a body and a store outcome. */
  function Outcome(body: Option<Json>, createFails: bool): (r: Response)
    ensures r.status == 200 || r.status == 400 || r.status == 500
    ensures r.status == 400 <==> body.Some? && ValidateBuyoutInquiry(body.value).Failure?
    ensures r.status == 200 <==> body.Some? && ValidateBuyoutInquiry(body.value).Success? && !createFails
  {
    if body.None? then FailedToSubmit
    else if ValidateBuyoutInquiry(body.value).Failure? then InvalidSubmission
    else if createFails then FailedToSubmit
    else SuccessResponse
  }

  /** The documents a request adds to the store. */
  function Stored(body: Option<Json>, now: string, createFails: bool): (docs: seq<ContentStore.Document>)
    ensures |docs| <= 1
    ensures docs != [] <==> Attempted(body, now).Some? && !createFails
  {
    if Attempted(body, now).Some? && !createFails then [Attempted(body, now).value] else []
  }

  method Post(client: ContentStore.Client, body: Option<Json>, now: string, createFails: bool)
    returns (response: Response)
    modifies client
    ensures response == Outcome(body, createFails)
    ensures client.documents == old(client.documents) + Stored(body, now, createFails)
    ensures client.createCalls == old(client.createCalls) + (if Attempted(body, now).Some? then 1 else 0)
  {
    if body.None? {
      // `request.json()` threw; the catch answers 500.
      return FailedToSubmit;
    }
    var parsed := ValidateBuyoutInquiry(body.value);
    if parsed.Failure? {
      return InvalidSubmission;
    }
    var created := client.Create(Record(parsed.value, now), createFails);
    if !created {
      return FailedToSubmit;
    }
    return SuccessResponse;
  }

  /** A payload the schema refuses gets 400 and adds nothing; any other payload never gets 400. */
  lemma InvalidPayloadRefused(payload: Json, now: string, createFails: bool)
    ensures Outcome(Some(payload), createFails) == InvalidSubmission <==> ValidateBuyoutInquiry(payload).Failure?
    ensures ValidateBuyoutInquiry(payload).Failure? ==>
              Attempted(Some(payload), now).None? && Stored(Some(payload), now, createFails) == []
  {
  }

  /** A body that is not JSON is a server error (500, not 400) and reaches no `create`. */
  lemma MalformedBodyIsServerError(now: string, createFails: bool)
    ensures Outcome(None, createFails) == FailedToSubmit
    ensures Attempted(None, now).None? && Stored(None, now, createFails) == []
  {
  }

  /** The answer is 200 exactly when one document is stored, and 500 exactly when the body is not JSON or the store fails. */
  lemma StatusMatchesStore(body: Option<Json>, now: string, createFails: bool)
    ensures Outcome(body, createFails) == SuccessResponse <==> |Stored(body, now, createFails)| == 1
    ensures Outcome(body, createFails) == SuccessResponse || |Stored(body, now, createFails)| == 0
    ensures Outcome(body, createFails) == FailedToSubmit <==> body.None? || (Attempted(body, now).Some? && createFails)
  {
  }

  /**
   * A valid payload is stored as one document, and the schema reads that
   * document back as the parsed payload (the group size already coerced to a
   * number).
   */
  lemma ValidPayloadStored(payload: Json, now: string)
    requires ValidateBuyoutInquiry(payload).Success?
    ensures Outcome(Some(payload), false) == SuccessResponse
    ensures Stored(Some(payload), now, false) == [Record(ValidateBuyoutInquiry(payload).value, now)]
    ensures ValidateBuyoutInquiry(JObj(Record(ValidateBuyoutInquiry(payload).value, now))) == ValidateBuyoutInquiry(payload)
  {
    RecordReadsBack(ValidateBuyoutInquiry(payload).value, now);
  }

  /** A stored record is a `buyoutInquiry` stamped with `now`, with a numeric group size and no `status` or `notes`. */
  lemma RecordShape(d: BuyoutInquiryData, now: string)
    ensures Record(d, now)["_type"] == JStr("buyoutInquiry")
    ensures Record(d, now)["submittedAt"] == JStr(now)
    ensures Record(d, now)["groupSize"] == JNum(d.groupSize)
    ensures "status" !in Record(d, now) && "notes" !in Record(d, now)
  {
  }

  /** The schema reads a stored record back as the data it was made from; the extra keys are stripped. */
  lemma RecordReadsBack(d: BuyoutInquiryData, now: string)
    requires IsBuyoutInquiryData(d)
    ensures ValidateBuyoutInquiry(JObj(Record(d, now))) == Success(d)
  {
    var f := Record(d, now);
    assert f["name"] == JStr(d.name) && f["email"] == JStr(d.email);
    assert f["phone"] == JStr(d.phone) && f["company"] == JStr(d.company);
    assert f["preferredDates"] == JStr(d.preferredDates) && f["eventType"] == JStr(d.eventType);
    assert f["additionalDetails"] == JStr(d.additionalDetails);
    assert NumberOf(Get(f, "groupSize")) == Some(d.groupSize);
  }
}
