/**
 * components/forms/WeddingInquiryForm.tsx: the wedding form's own schema,
 * the remap of a wedding inquiry into the buyout-inquiry payload, and the
 * `submitted` / `isSubmitting` state of the form around one `fetch`.
 */
module WeddingInquiryForm {
  import opened Common
  import opened Json
  import opened Http
  import opened Validations
  import Email
  import BuyoutInquirySchema
  import BuyoutInquiryRoute

  datatype WeddingData = WeddingData(
    name: string,
    email: string,
    phone: string,
    partnerName: string,
    weddingDate: string,
    guestCount: real,
    additionalDetails: string)

  /** The values `weddingSchema` can produce. */
  predicate IsWeddingData(w: WeddingData) {
    && |w.name| >= 1
    && Email.IsEmail(w.email)
    && |w.weddingDate| >= 1
    && w.guestCount >= 1.0
  }

  /** `weddingSchema.safeParse`. */
  function ValidateWedding(payload: Json): (r: Result<WeddingData>)
    ensures r.Success? <==>
      && payload.JObj?
      && IsStringAt(payload.fields, "name") && |payload.fields["name"].s| >= 1
      && IsStringAt(payload.fields, "email") && Email.IsEmail(payload.fields["email"].s)
      && ("phone" in payload.fields ==> payload.fields["phone"].JStr?)
      && ("partnerName" in payload.fields ==> payload.fields["partnerName"].JStr?)
      && IsStringAt(payload.fields, "weddingDate") && |payload.fields["weddingDate"].s| >= 1
      && NumberOf(Get(payload.fields, "guestCount")).Some?
      && NumberOf(Get(payload.fields, "guestCount")).value >= 1.0
      && ("additionalDetails" in payload.fields ==> payload.fields["additionalDetails"].JStr?)
    ensures r.Success? ==>
      && IsWeddingData(r.value)
      && r.value.name == payload.fields["name"].s
      && r.value.email == payload.fields["email"].s
      && r.value.phone == (if "phone" in payload.fields then payload.fields["phone"].s else "")
      && r.value.partnerName == (if "partnerName" in payload.fields then payload.fields["partnerName"].s else "")
      && r.value.weddingDate == payload.fields["weddingDate"].s
      && r.value.guestCount == NumberOf(Get(payload.fields, "guestCount")).value
      && r.value.additionalDetails ==
           (if "additionalDetails" in payload.fields then payload.fields["additionalDetails"].s else "")
    ensures r.Failure? ==> r.issues != []
  {
    if !payload.JObj? then Failure([Issue("", WrongType)])
    else
      var f := payload.fields;
      var name := NonEmptyString(f, "name", "Name is required");
      var email := EmailString(f, "email", "Invalid email address");
      var phone := DefaultedString(f, "phone");
      var partnerName := DefaultedString(f, "partnerName");
      var weddingDate := NonEmptyString(f, "weddingDate", "Wedding date is required");
      var guestCount := CoercedAtLeastOne(f, "guestCount", "Guest count is required");
      var additionalDetails := DefaultedString(f, "additionalDetails");
      if && name.Pass? && email.Pass? && phone.Pass? && partnerName.Pass? && weddingDate.Pass?
         && guestCount.Pass? && additionalDetails.Pass?
      then
        Success(WeddingData(name.value, email.value, phone.value, partnerName.value,
                            weddingDate.value, guestCount.value, additionalDetails.value))
      else
        Failure(IssuesOf(name) + IssuesOf(email) + IssuesOf(phone) + IssuesOf(partnerName)
                + IssuesOf(weddingDate) + IssuesOf(guestCount) + IssuesOf(additionalDetails))
  }

  /** The event type every wedding inquiry is filed under. */
  const WeddingEventType: string := "Wedding/Celebration"

  /** The `company` a wedding inquiry is filed under. */
  function CompanyLabel(name: string, partnerName: string): (c: string)
    ensures |c| >= 9 + |name| && c[..9] == "Wedding: "
    ensures partnerName == "" <==> |c| == 9 + |name|
  {
    if partnerName != "" then "Wedding: " + name + " & " + partnerName else "Wedding: " + name
  }

  /** `buyoutData` in `onSubmit`: a wedding inquiry in the buyout-inquiry shape. */
  function ToBuyoutInquiry(w: WeddingData): (b: BuyoutInquiryData)
    ensures b.name == w.name && b.email == w.email
    ensures b.preferredDates == w.weddingDate && b.groupSize == w.guestCount
    ensures b.eventType == WeddingEventType
  {
    BuyoutInquiryData(
      w.name, w.email, Or(w.phone, ""), CompanyLabel(w.name, w.partnerName),
      w.weddingDate, w.guestCount, WeddingEventType, Or(w.additionalDetails, ""))
  }

  /** The company label names the couple, with the partner only when one was given. */
  lemma CompanyNamesTheCouple(name: string, partnerName: string)
    ensures
      var c := CompanyLabel(name, partnerName);
      var head := "Wedding: " + name;
      && |head| <= |c| && c[..|head|] == head
      && (partnerName == "" <==> c == head)
      && (partnerName != "" ==> c[|head|..] == " & " + partnerName)
  {
  }

  /** The phone and the details pass through unchanged: their `|| ''` fallback maps "" to "". */
  lemma OptionalFieldsPassThrough(w: WeddingData)
    ensures ToBuyoutInquiry(w).phone == w.phone
    ensures ToBuyoutInquiry(w).additionalDetails == w.additionalDetails
  {
  }

  /**
   * Every inquiry the wedding schema accepts, once remapped, is accepted by the
   * buyout-inquiry schema, which reads it back unchanged.
   */
  lemma RemapAccepted(w: WeddingData)
    requires IsWeddingData(w)
    ensures IsBuyoutInquiryData(ToBuyoutInquiry(w))
    ensures ValidateBuyoutInquiry(BuyoutInquiryJson(ToBuyoutInquiry(w))) == Success(ToBuyoutInquiry(w))
  {
    BuyoutInquiryRoundTrip(ToBuyoutInquiry(w));
  }

  /** The same theorem from the raw form payload to the route: an accepted wedding form is answered 200 by the buyout route when the store works. */
  lemma WeddingPayloadReachesStore(payload: Json, now: string)
    requires ValidateWedding(payload).Success?
    ensures
      var body := BuyoutInquiryJson(ToBuyoutInquiry(ValidateWedding(payload).value));
      && ValidateBuyoutInquiry(body).Success?
      && BuyoutInquiryRoute.Outcome(Some(body), false) == SuccessResponse
      && |BuyoutInquiryRoute.Stored(Some(body), now, false)| == 1
  {
    RemapAccepted(ValidateWedding(payload).value);
  }

  /**
   * The event type is not one of the Studio's list values (that list says
   * `wedding_celebration`), yet the route accepts it: the schema only asks for
   * a non-empty string.
   */
  lemma EventTypeOutsideStudioList()
    ensures WeddingEventType !in BuyoutInquirySchema.Values(BuyoutInquirySchema.EventTypes)
    ensures |WeddingEventType| >= 1
  {
    BuyoutInquirySchema.OptionValues();
  }

  /** A couple's inquiry: accepted with the optional fields defaulted. */
  lemma CoupleAccepted(email: string)
    requires Email.IsEmail(email)
    ensures
      var payload := JObj(map["name" := JStr("Jo"), "partnerName" := JStr("Sam"), "email" := JStr(email),
                              "weddingDate" := JStr("Oct 1, 2026"), "guestCount" := JNum(100.0)]);
      ValidateWedding(payload) == Success(WeddingData("Jo", email, "", "Sam", "Oct 1, 2026", 100.0, ""))
  {
    var f := map["name" := JStr("Jo"), "partnerName" := JStr("Sam"), "email" := JStr(email),
                 "weddingDate" := JStr("Oct 1, 2026"), "guestCount" := JNum(100.0)];
    assert f["name"] == JStr("Jo") && f["partnerName"] == JStr("Sam") && f["email"] == JStr(email);
    assert f["weddingDate"] == JStr("Oct 1, 2026") && "phone" !in f && "additionalDetails" !in f;
    assert NumberOf(Get(f, "guestCount")) == Some(100.0);
  }

  /** The couple's inquiry as the buyout route receives it: the partner's name appears in the company label. */
  lemma CoupleRemapped(email: string)
    ensures ToBuyoutInquiry(WeddingData("Jo", email, "", "Sam", "Oct 1, 2026", 100.0, ""))
         == BuyoutInquiryData("Jo", email, "", "Wedding: Jo & Sam", "Oct 1, 2026", 100.0, "Wedding/Celebration", "")
  {
    assert CompanyLabel("Jo", "Sam") == "Wedding: Jo & Sam";
  }

  const Endpoint: string := "/api/buyout-inquiry"

  /** The component's state: `submitted` and `isSubmitting`, and the requests it has sent. */
  class Form {
    var submitted: bool
    var isSubmitting: bool
    var sent: seq<Sent>

    constructor ()
      ensures !submitted && !isSubmitting && sent == []
    {
      submitted := false;
      isSubmitting := false;
      sent := [];
    }

    /**
     * `onSubmit`, called by the form library with data the wedding schema
     * accepted. `result` is what the `fetch` comes back with.
     */
    method OnSubmit(data: WeddingData, result: FetchResult)
      requires IsWeddingData(data)
      modifies this
      ensures sent == old(sent) + [Sent(Request(Endpoint, BuyoutInquiryJson(ToBuyoutInquiry(data))), true)]
      ensures ValidateBuyoutInquiry(sent[|sent| - 1].request.body).Success?
      ensures submitted <==> old(submitted) || (result.Responded? && Ok(result.status))
      ensures !isSubmitting
    {
      isSubmitting := true;
      var body := BuyoutInquiryJson(ToBuyoutInquiry(data));
      RemapAccepted(data);
      sent := sent + [Sent(Request(Endpoint, body), isSubmitting)];
      if result.Responded? && Ok(result.status) {
        submitted := true;
      }
      // `finally`: reached after an ok response, a refused one and a thrown `fetch` alike.
      isSubmitting := false;
    }
  }
}
