/**
 * `POST` of app/api/waitlist/route.ts: read the JSON body, parse it with
 * `waitlistSchema`, create one `waitlistSubmission` document, answer.
 * The module-level CMS client is passed in; the clock reading is `now`; a
 * failure of the store's `create` is `createFails`; a body that is not JSON
 * is `None` (where `request.json()` throws).
 */
module WaitlistRoute {
  import opened Common
  import opened Json
  import opened Http
  import opened Validations
  import ContentStore

  const InvalidSubmission: Response := ErrorResponse(400, "Invalid submission")
  const FailedToSubmit: Response := ErrorResponse(500, "Failed to submit")

  /** The fields of the created document. There is no `status`: that default exists only in the Studio. */
  const RecordFields: set<string> := {"_type", "firstName", "lastName", "email", "interests", "submittedAt"}

  /** The object passed to `client.create` for a parsed payload. */
  function Record(d: WaitlistData, submittedAt: string): (doc: ContentStore.Document)
    ensures doc.Keys == RecordFields
  {
    map[
      "_type" := JStr("waitlistSubmission"),
      "firstName" := JStr(d.firstName),
      "lastName" := JStr(d.lastName),
      "email" := JStr(d.email),
      "interests" := JArr(StringArray(d.interests)),
      "submittedAt" := JStr(submittedAt)
    ]
  }

  /** The document the route hands to `create`, if it gets that far. */
  function Attempted(body: Option<Json>, now: string): (a: Option<ContentStore.Document>)
    ensures a.Some? <==> body.Some? && ValidateWaitlist(body.value).Success?
    ensures a.Some? ==> a.value.Keys == RecordFields && a.value["submittedAt"] == JStr(now)
  {
    if body.None? then None
    else
      match ValidateWaitlist(body.value)
      case Failure(_) => None
      case Success(d) => Some(Record(d, now))
  }

  /** The response for a body and a store outcome. */
  function Outcome(body: Option<Json>, createFails: bool): (r: Response)
    ensures r.status == 200 || r.status == 400 || r.status == 500
    ensures r.status == 400 <==> body.Some? && ValidateWaitlist(body.value).Failure?
    ensures r.status == 200 <==> body.Some? && ValidateWaitlist(body.value).Success? && !createFails
  {
    if body.None? then FailedToSubmit
    else if ValidateWaitlist(body.value).Failure? then InvalidSubmission
    else if createFails then FailedToSubmit
    else SuccessResponse
  }

  /** The documents a request adds to the store. */
  function Stored(body: Option<Json>, now: string, createFails: bool): (docs: seq<ContentStore.Document>)
    ensures |docs| <= 1
    ensures docs != [] <==> Attempted(body, now).Some? && !createFails
  {
    if Attempted(body, now).Some? && !createFails then [Attempted(body, now).value] else []
  }

  method Post(client: ContentStore.Client, body: Option<Json>, now: string, createFails: bool)
    returns (response: Response)
    modifies client
    ensures response == Outcome(body, createFails)
    ensures client.documents == old(client.documents) + Stored(body, now, createFails)
    ensures client.createCalls == old(client.createCalls) + (if Attempted(body, now).Some? then 1 else 0)
  {
    if body.None? {
      // `request.json()` threw; the catch answers 500.
      return FailedToSubmit;
    }
    var parsed := ValidateWaitlist(body.value);
    if parsed.Failure? {
      return InvalidSubmission;
    }
    var created := client.Create(Record(parsed.value, now), createFails);
    if !created {
      return FailedToSubmit;
    }
    return SuccessResponse;
  }

  /** A payload the schema refuses gets 400 and adds nothing; any other payload never gets 400. */
  lemma InvalidPayloadRefused(payload: Json, now: string, createFails: bool)
    ensures Outcome(Some(payload), createFails) == InvalidSubmission <==> ValidateWaitlist(payload).Failure?
    ensures ValidateWaitlist(payload).Failure? ==>
              Attempted(Some(payload), now).None? && Stored(Some(payload), now, createFails) == []
  {
  }

  /** A body that is not JSON is a server error (500, not 400) and reaches no `create`. */
  lemma MalformedBodyIsServerError(now: string, createFails: bool)
    ensures Outcome(None, createFails) == FailedToSubmit
    ensures Attempted(None, now).None? && Stored(None, now, createFails) == []
  {
  }

  /** The answer is 200 exactly when one document is stored, and 500 exactly when the body is not JSON or the store fails. */
  lemma StatusMatchesStore(body: Option<Json>, now: string, createFails: bool)
    ensures Outcome(body, createFails) == SuccessResponse <==> |Stored(body, now, createFails)| == 1
    ensures Outcome(body, createFails) == SuccessResponse || |Stored(body, now, createFails)| == 0
    ensures Outcome(body, createFails) == FailedToSubmit <==> body.None? || (Attempted(body, now).Some? && createFails)
  {
  }

  /** A valid payload is stored as one document, and the schema reads that document back as the parsed payload. */
  lemma ValidPayloadStored(payload: Json, now: string)
    requires ValidateWaitlist(payload).Success?
    ensures Outcome(Some(payload), false) == SuccessResponse
    ensures Stored(Some(payload), now, false) == [Record(ValidateWaitlist(payload).value, now)]
    ensures ValidateWaitlist(JObj(Record(ValidateWaitlist(payload).value, now))) == ValidateWaitlist(payload)
  {
    RecordReadsBack(ValidateWaitlist(payload).value, now);
  }

  /** A stored record is a `waitlistSubmission` stamped with `now`, with no `status`. */
  lemma RecordShape(d: WaitlistData, now: string)
    ensures Record(d, now)["_type"] == JStr("waitlistSubmission")
    ensures Record(d, now)["submittedAt"] == JStr(now)
    ensures "status" !in Record(d, now)
  {
  }

  /** The schema reads a stored record back as the data it was made from; the extra keys are stripped. */
  lemma RecordReadsBack(d: WaitlistData, now: string)
    requires IsWaitlistData(d)
    ensures ValidateWaitlist(JObj(Record(d, now))) == Success(d)
  {
    var doc := Record(d, now);
    AsStringsOfStringArray(d.interests);
    assert doc["firstName"] == JStr(d.firstName) && doc["lastName"] == JStr(d.lastName);
    assert doc["email"] == JStr(d.email) && doc["interests"] == JArr(StringArray(d.interests));
  }

  /** Two identical valid submissions store two identical documents: there is no deduplication. */
  method ResubmissionStoresTwice(client: ContentStore.Client, payload: Json, now: string)
    requires ValidateWaitlist(payload).Success?
    modifies client
    ensures |client.documents| == |old(client.documents)| + 2
    ensures client.documents[|client.documents| - 1] == client.documents[|client.documents| - 2]
  {
    var first := Post(client, Some(payload), now, false);
    var second := Post(client, Some(payload), now, false);
  }
}
