/**
 * components/forms/BuyoutInquiryForm.tsx: the event-type options of the
 * select, the form's default values, and the `submitted` / `isSubmitting`
 * state of the form around one `fetch`.
 */
module BuyoutInquiryForm {
  import opened Common
  import opened Json
  import opened Http
  import opened Validations
  import BuyoutInquirySchema

  /** The `SelectItem`s, label and value, in order. */
  const EventTypeOptions: seq<BuyoutInquirySchema.ListOption> := [
    BuyoutInquirySchema.ListOption("Executive Retreat", "executive_retreat"),
    BuyoutInquirySchema.ListOption("Creative Intensive", "creative_intensive"),
    BuyoutInquirySchema.ListOption("Wedding/Celebration", "wedding_celebration"),
    BuyoutInquirySchema.ListOption("Other", "other")
  ]

  /** The select offers exactly the Studio's event types: same values, same labels, same order. */
  lemma OptionsMatchStudio()
    ensures BuyoutInquirySchema.Values(EventTypeOptions) == BuyoutInquirySchema.Values(BuyoutInquirySchema.EventTypes)
    ensures EventTypeOptions == BuyoutInquirySchema.EventTypes
  {
  }

  /** Every option the select offers passes the schema's event-type rule. */
  lemma OptionsAccepted()
    ensures forall i :: 0 <= i < |EventTypeOptions| ==> |EventTypeOptions[i].value| >= 1
  {
  }

  /** `defaultValues`: what an untouched form submits. */
  const DefaultValues: Json := JObj(map[
    "name" := JStr(""),
    "email" := JStr(""),
    "phone" := JStr(""),
    "company" := JStr(""),
    "preferredDates" := JStr(""),
    "groupSize" := JNum(0.0),
    "eventType" := JStr(""),
    "additionalDetails" := JStr("")
  ])

  /** An untouched form is refused with one message for each required field, in field order. */
  lemma DefaultValuesRefused()
    ensures ValidateBuyoutInquiry(DefaultValues) == Failure([
      Issue("name", TooSmall("Name is required")),
      Issue("email", NotAnEmail("Enter a valid email")),
      Issue("preferredDates", TooSmall("Preferred dates are required")),
      Issue("groupSize", TooSmall("Group size is required")),
      Issue("eventType", TooSmall("Event type is required"))])
  {
    var f := DefaultValues.fields;
    assert !Email.IsEmail("");
    assert f["name"] == JStr("") && f["email"] == JStr("") && f["preferredDates"] == JStr("");
    assert f["eventType"] == JStr("") && f["phone"] == JStr("") && f["company"] == JStr("");
    assert f["additionalDetails"] == JStr("") && f["groupSize"] == JNum(0.0);
    assert NonEmptyString(f, "name", "Name is required") == Reject(Issue("name", TooSmall("Name is required")));
    assert EmailString(f, "email", "Enter a valid email") == Reject(Issue("email", NotAnEmail("Enter a valid email")));
    assert DefaultedString(f, "phone") == Pass("") && DefaultedString(f, "company") == Pass("");
    assert NonEmptyString(f, "preferredDates", "Preferred dates are required")
        == Reject(Issue("preferredDates", TooSmall("Preferred dates are required")));
    assert CoercedAtLeastOne(f, "groupSize", "Group size is required")
        == Reject(Issue("groupSize", TooSmall("Group size is required")));
    assert NonEmptyString(f, "eventType", "Event type is required")
        == Reject(Issue("eventType", TooSmall("Event type is required")));
    assert DefaultedString(f, "additionalDetails") == Pass("");
  }

  /** A cleared group-size field is `undefined`, which `Number` turns into NaN: refused, whatever the rest says. */
  lemma ClearedGroupSizeRefused(fields: map<string, Json>)
    requires "groupSize" !in fields
    ensures ValidateBuyoutInquiry(JObj(fields)).Failure?
  {
  }

  const Endpoint: string := "/api/buyout-inquiry"

  /** The component's state: `submitted` and `isSubmitting`, and the requests it has sent. */
  class Form {
    var submitted: bool
    var isSubmitting: bool
    var sent: seq<Sent>

    constructor ()
      ensures !submitted && !isSubmitting && sent == []
    {
      submitted := false;
      isSubmitting := false;
      sent := [];
    }

    /**
     * `onSubmit`, called by the form library with data the buyout schema
     * accepted; the data is sent as it is. `result` is what `fetch` comes back
     * with.
     */
    method OnSubmit(data: BuyoutInquiryData, result: FetchResult)
      requires IsBuyoutInquiryData(data)
      modifies this
      ensures sent == old(sent) + [Sent(Request(Endpoint, BuyoutInquiryJson(data)), true)]
      ensures submitted <==> old(submitted) || (result.Responded? && Ok(result.status))
      ensures !isSubmitting
    {
      isSubmitting := true;
      var request := Request(Endpoint, BuyoutInquiryJson(data));
      sent := sent + [Sent(request, isSubmitting)];
      if result.Responded? && Ok(result.status) {
        submitted := true;
      }
      // `finally`: reached after an ok response, a refused one and a thrown `fetch` alike.
      isSubmitting := false;
    }
  }
}
