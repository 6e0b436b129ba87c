/**
 * The intake schemas of lib/validations.ts: `waitlistSchema` and
 * `buyoutInquirySchema`, as validators from an untyped JSON payload to either
 * the normalised record or the list of issues found, and the field rules they
 * are built from (also used by the wedding form's schema).
 */
module Validations {
  import opened Common
  import opened Json
  import Email

  /** What is wrong with one field. `WrongType` carries the library's default message; the others the schema's own. */
  datatype Problem = WrongType | TooSmall(message: string) | NotAnEmail(message: string)

  datatype Issue = Issue(path: string, problem: Problem)

  /** `safeParse`: the parsed value, or every field's issue in the schema's field order. */
  datatype Result<T> = Success(value: T) | Failure(issues: seq<Issue>)

  /** The outcome of one field rule. */
  datatype Check<T> = Pass(value: T) | Reject(issue: Issue)

  function IssuesOf<T>(c: Check<T>): seq<Issue> {
    if c.Pass? then [] else [c.issue]
  }

  ghost predicate IsStringAt(fields: map<string, Json>, key: string) {
    key in fields && fields[key].JStr?
  }

  /** `z.string().min(1, message)`. */
  function NonEmptyString(fields: map<string, Json>, key: string, message: string): (c: Check<string>)
    ensures c.Pass? <==> IsStringAt(fields, key) && |fields[key].s| >= 1
    ensures c.Pass? ==> c.value == fields[key].s
    ensures c.Reject? ==> c.issue.path == key
  {
    match Get(fields, key)
    case Some(JStr(s)) => if |s| >= 1 then Pass(s) else Reject(Issue(key, TooSmall(message)))
    case _ => Reject(Issue(key, WrongType))
  }

  /** `z.string().email(message)`. */
  function EmailString(fields: map<string, Json>, key: string, message: string): (c: Check<string>)
    ensures c.Pass? <==> IsStringAt(fields, key) && Email.IsEmail(fields[key].s)
    ensures c.Pass? ==> c.value == fields[key].s
    ensures c.Reject? ==> c.issue.path == key
  {
    match Get(fields, key)
    case Some(JStr(s)) => if Email.IsEmail(s) then Pass(s) else Reject(Issue(key, NotAnEmail(message)))
    case _ => Reject(Issue(key, WrongType))
  }

  /** `z.string().default('')`: the default replaces only an absent value, not `null`. */
  function DefaultedString(fields: map<string, Json>, key: string): (c: Check<string>)
    ensures c.Pass? <==> key !in fields || fields[key].JStr?
    ensures c.Pass? ==> c.value == if key in fields then fields[key].s else ""
    ensures c.Reject? ==> c.issue.path == key
  {
    match Get(fields, key)
    case None => Pass("")
    case Some(JStr(s)) => Pass(s)
    case _ => Reject(Issue(key, WrongType))
  }

  /** `z.array(z.string()).optional().default([])`. */
  function DefaultedStringList(fields: map<string, Json>, key: string): (c: Check<seq<string>>)
    ensures c.Pass? <==> key !in fields || (fields[key].JArr? && AsStrings(fields[key].items).Some?)
    ensures c.Pass? && key !in fields ==> c.value == []
    ensures c.Pass? && key in fields ==> c.value == AsStrings(fields[key].items).value
    ensures c.Reject? ==> c.issue.path == key
  {
    match Get(fields, key)
    case None => Pass([])
    case Some(JArr(items)) =>
      var ss := AsStrings(items);
      if ss.Some? then Pass(ss.value) else Reject(Issue(key, WrongType))
    case _ => Reject(Issue(key, WrongType))
  }

  predicate AllDigits(s: string) {
    forall i :: 0 <= i < |s| ==> IsDigit(s[i])
  }

  /**
   * JavaScript's `Number(v)`, `None` standing for NaN. `undefined` is NaN,
   * `null` and `false` are 0, `true` is 1, and a string of decimal digits
   * (the empty string included) is its value.
   */
  function NumberOf(v: Option<Json>): (n: Option<real>)
    ensures v.None? ==> n.None?
    ensures v.Some? && v.value.JNum? ==> n == Some(v.value.n)
    ensures v.Some? && (v.value.JArr? || v.value.JObj?) ==> n.None?
  {
    match v
    case None => None
    case Some(JNull) => Some(0.0)
    case Some(JBool(b)) => Some(if b then 1.0 else 0.0)
    case Some(JNum(n)) => Some(n)
    case Some(JStr(s)) => if AllDigits(s) then Some(DecimalValue(s) as real) else None
    case Some(_) => None
  }

  /** A whole number sent as its numeral `${n}` coerces back to that number. */
  lemma NumberOfNumeral(n: nat)
    ensures NumberOf(Some(JStr(NumberToString(n)))) == Some(n as real)
  {
    DecimalValueOfNumberToString(n);
  }

  /** `z.coerce.number().min(1, message)`: convert with `Number`, refuse NaN, then require at least 1. */
  function CoercedAtLeastOne(fields: map<string, Json>, key: string, message: string): (c: Check<real>)
    ensures c.Pass? <==> NumberOf(Get(fields, key)).Some? && NumberOf(Get(fields, key)).value >= 1.0
    ensures c.Pass? ==> c.value == NumberOf(Get(fields, key)).value
    ensures c.Reject? ==> c.issue.path == key
  {
    match NumberOf(Get(fields, key))
    case None => Reject(Issue(key, WrongType))
    case Some(n) => if n >= 1.0 then Pass(n) else Reject(Issue(key, TooSmall(message)))
  }

  // ---------------------------------------------------------------- waitlist

  datatype WaitlistData = WaitlistData(firstName: string, lastName: string, email: string, interests: seq<string>)

  /** The values `waitlistSchema` can produce. */
  predicate IsWaitlistData(d: WaitlistData) {
    |d.firstName| >= 1 && |d.lastName| >= 1 && Email.IsEmail(d.email)
  }

  function ValidateWaitlist(payload: Json): (r: Result<WaitlistData>)
    ensures r.Success? <==>
      && payload.JObj?
      && IsStringAt(payload.fields, "firstName") && |payload.fields["firstName"].s| >= 1
      && IsStringAt(payload.fields, "lastName") && |payload.fields["lastName"].s| >= 1
      && IsStringAt(payload.fields, "email") && Email.IsEmail(payload.fields["email"].s)
      && ("interests" in payload.fields ==>
            payload.fields["interests"].JArr? && AsStrings(payload.fields["interests"].items).Some?)
    ensures r.Success? ==>
      && IsWaitlistData(r.value)
      && r.value.firstName == payload.fields["firstName"].s
      && r.value.lastName == payload.fields["lastName"].s
      && r.value.email == payload.fields["email"].s
      && r.value.interests ==
           if "interests" in payload.fields then AsStrings(payload.fields["interests"].items).value else []
    ensures r.Failure? ==> r.issues != []
  {
    if !payload.JObj? then Failure([Issue("", WrongType)])
    else
      var f := payload.fields;
      var firstName := NonEmptyString(f, "firstName", "First name is required");
      var lastName := NonEmptyString(f, "lastName", "Last name is required");
      var email := EmailString(f, "email", "Enter a valid email");
      var interests := DefaultedStringList(f, "interests");
      if firstName.Pass? && lastName.Pass? && email.Pass? && interests.Pass? then
        Success(WaitlistData(firstName.value, lastName.value, email.value, interests.value))
      else
        Failure(IssuesOf(firstName) + IssuesOf(lastName) + IssuesOf(email) + IssuesOf(interests))
  }

  /** `JSON.stringify` of the parsed waitlist payload. */
  function WaitlistJson(d: WaitlistData): Json {
    JObj(map[
      "firstName" := JStr(d.firstName),
      "lastName" := JStr(d.lastName),
      "email" := JStr(d.email),
      "interests" := JArr(StringArray(d.interests))
    ])
  }

  /** A serialised record parses back to itself exactly when it is one the schema can produce. */
  lemma WaitlistRoundTrip(d: WaitlistData)
    ensures ValidateWaitlist(WaitlistJson(d)).Success? <==> IsWaitlistData(d)
    ensures IsWaitlistData(d) ==> ValidateWaitlist(WaitlistJson(d)) == Success(d)
  {
    AsStringsOfStringArray(d.interests);
  }

  /** Parsing is idempotent: the form parses, sends, and the route parses again to the same value. */
  lemma WaitlistIdempotent(payload: Json)
    requires ValidateWaitlist(payload).Success?
    ensures ValidateWaitlist(WaitlistJson(ValidateWaitlist(payload).value)) == ValidateWaitlist(payload)
  {
    WaitlistRoundTrip(ValidateWaitlist(payload).value);
  }

  // ---------------------------------------------------------- buyout inquiry

  datatype BuyoutInquiryData = BuyoutInquiryData(
    name: string,
    email: string,
    phone: string,
    company: string,
    preferredDates: string,
    groupSize: real,
    eventType: string,
    additionalDetails: string)

  /** The values `buyoutInquirySchema` can produce. */
  predicate IsBuyoutInquiryData(d: BuyoutInquiryData) {
    && |d.name| >= 1
    && Email.IsEmail(d.email)
    && |d.preferredDates| >= 1
    && d.groupSize >= 1.0
    && |d.eventType| >= 1
  }

  function ValidateBuyoutInquiry(payload: Json): (r: Result<BuyoutInquiryData>)
    ensures r.Success? <==>
      && payload.JObj?
      && IsStringAt(payload.fields, "name") && |payload.fields["name"].s| >= 1
      && IsStringAt(payload.fields, "email") && Email.IsEmail(payload.fields["email"].s)
      && ("phone" in payload.fields ==> payload.fields["phone"].JStr?)
      && ("company" in payload.fields ==> payload.fields["company"].JStr?)
      && IsStringAt(payload.fields, "preferredDates") && |payload.fields["preferredDates"].s| >= 1
      && NumberOf(Get(payload.fields, "groupSize")).Some?
      && NumberOf(Get(payload.fields, "groupSize")).value >= 1.0
      && IsStringAt(payload.fields, "eventType") && |payload.fields["eventType"].s| >= 1
      && ("additionalDetails" in payload.fields ==> payload.fields["additionalDetails"].JStr?)
    ensures r.Success? ==>
      && IsBuyoutInquiryData(r.value)
      && r.value.name == payload.fields["name"].s
      && r.value.email == payload.fields["email"].s
      && r.value.phone == (if "phone" in payload.fields then payload.fields["phone"].s else "")
      && r.value.company == (if "company" in payload.fields then payload.fields["company"].s else "")
      && r.value.preferredDates == payload.fields["preferredDates"].s
      && r.value.groupSize == NumberOf(Get(payload.fields, "groupSize")).value
      && r.value.eventType == payload.fields["eventType"].s
      && r.value.additionalDetails ==
           (if "additionalDetails" in payload.fields then payload.fields["additionalDetails"].s else "")
    ensures r.Failure? ==> r.issues != []
  {
    if !payload.JObj? then Failure([Issue("", WrongType)])
    else
      var f := payload.fields;
      var name := NonEmptyString(f, "name", "Name is required");
      var email := EmailString(f, "email", "Enter a valid email");
      var phone := DefaultedString(f, "phone");
      var company := DefaultedString(f, "company");
      var preferredDates := NonEmptyString(f, "preferredDates", "Preferred dates are required");
      var groupSize := CoercedAtLeastOne(f, "groupSize", "Group size is required");
      var eventType := NonEmptyString(f, "eventType", "Event type is required");
      var additionalDetails := DefaultedString(f, "additionalDetails");
      if && name.Pass? && email.Pass? && phone.Pass? && company.Pass? && preferredDates.Pass?
         && groupSize.Pass? && eventType.Pass? && additionalDetails.Pass?
      then
        Success(BuyoutInquiryData(name.value, email.value, phone.value, company.value,
                                  preferredDates.value, groupSize.value, eventType.value, additionalDetails.value))
      else
        Failure(IssuesOf(name) + IssuesOf(email) + IssuesOf(phone) + IssuesOf(company)
                + IssuesOf(preferredDates) + IssuesOf(groupSize) + IssuesOf(eventType) + IssuesOf(additionalDetails))
  }

  /** `JSON.stringify` of a buyout inquiry payload. */
  function BuyoutInquiryJson(d: BuyoutInquiryData): Json {
    JObj(map[
      "name" := JStr(d.name),
      "email" := JStr(d.email),
      "phone" := JStr(d.phone),
      "company" := JStr(d.company),
      "preferredDates" := JStr(d.preferredDates),
      "groupSize" := JNum(d.groupSize),
      "eventType" := JStr(d.eventType),
      "additionalDetails" := JStr(d.additionalDetails)
    ])
  }

  lemma BuyoutInquiryRoundTrip(d: BuyoutInquiryData)
    ensures ValidateBuyoutInquiry(BuyoutInquiryJson(d)).Success? <==> IsBuyoutInquiryData(d)
    ensures IsBuyoutInquiryData(d) ==> ValidateBuyoutInquiry(BuyoutInquiryJson(d)) == Success(d)
  {
    var f := BuyoutInquiryJson(d).fields;
    assert f["name"] == JStr(d.name) && f["email"] == JStr(d.email);
    assert f["phone"] == JStr(d.phone) && f["company"] == JStr(d.company);
    assert f["preferredDates"] == JStr(d.preferredDates) && f["eventType"] == JStr(d.eventType);
    assert f["additionalDetails"] == JStr(d.additionalDetails);
    assert NumberOf(Get(f, "groupSize")) == Some(d.groupSize);
  }

  lemma BuyoutInquiryIdempotent(payload: Json)
    requires ValidateBuyoutInquiry(payload).Success?
    ensures ValidateBuyoutInquiry(BuyoutInquiryJson(ValidateBuyoutInquiry(payload).value)) == ValidateBuyoutInquiry(payload)
  {
    BuyoutInquiryRoundTrip(ValidateBuyoutInquiry(payload).value);
  }

  // ---------------------------------------------------------------- examples

  /** An empty first name is refused with the schema's message, and with no other issue when the rest is valid. */
  lemma EmptyFirstNameRefused(lastName: string, email: string)
    requires lastName != "" && Email.IsEmail(email)
    ensures ValidateWaitlist(JObj(map["firstName" := JStr(""), "lastName" := JStr(lastName), "email" := JStr(email)]))
            == Failure([Issue("firstName", TooSmall("First name is required"))])
  {
  }

  /** An address the email check refuses is reported on the `email` field with the schema's message. */
  lemma BadEmailRefused(firstName: string, lastName: string, email: string)
    requires firstName != "" && lastName != "" && !Email.IsEmail(email)
    ensures ValidateWaitlist(JObj(map["firstName" := JStr(firstName), "lastName" := JStr(lastName), "email" := JStr(email)]))
            == Failure([Issue("email", NotAnEmail("Enter a valid email"))])
  {
  }

  /** Names are not trimmed (a single space is a name), and absent interests become the empty list. */
  lemma UntrimmedNamesAccepted(email: string)
    requires Email.IsEmail(email)
    ensures ValidateWaitlist(JObj(map["firstName" := JStr(" "), "lastName" := JStr(" "), "email" := JStr(email)]))
            == Success(WaitlistData(" ", " ", email, []))
  {
  }

  /** The group-size bound is `>= 1` on a number, with no integer requirement, and any non-empty event type passes. */
  lemma GroupSizeAndEventType(email: string, groupSize: real, eventType: string)
    requires Email.IsEmail(email)
    ensures
      var p := JObj(map["name" := JStr("A"), "email" := JStr(email), "preferredDates" := JStr("June"),
                        "groupSize" := JNum(groupSize), "eventType" := JStr(eventType)]);
      ValidateBuyoutInquiry(p).Success? <==> groupSize >= 1.0 && eventType != ""
  {
    var f := map["name" := JStr("A"), "email" := JStr(email), "preferredDates" := JStr("June"),
                 "groupSize" := JNum(groupSize), "eventType" := JStr(eventType)];
    assert "phone" !in f && "company" !in f && "additionalDetails" !in f;
    assert f["name"] == JStr("A") && f["email"] == JStr(email) && f["preferredDates"] == JStr("June");
    assert f["eventType"] == JStr(eventType) && Get(f, "groupSize") == Some(JNum(groupSize));
    assert NonEmptyString(f, "name", "Name is required").Pass?;
    assert EmailString(f, "email", "Enter a valid email").Pass?;
    assert DefaultedString(f, "phone").Pass? && DefaultedString(f, "company").Pass?;
    assert NonEmptyString(f, "preferredDates", "Preferred dates are required").Pass?;
    assert CoercedAtLeastOne(f, "groupSize", "Group size is required").Pass? <==> groupSize >= 1.0;
    assert NonEmptyString(f, "eventType", "Event type is required").Pass? <==> eventType != "";
    assert DefaultedString(f, "additionalDetails").Pass?;
  }

  /** A valid inquiry without the optional fields gets `""` for each of them. */
  lemma OptionalFieldsDefault(email: string)
    requires Email.IsEmail(email)
    ensures ValidateBuyoutInquiry(JObj(map["name" := JStr("A"), "email" := JStr(email), "preferredDates" := JStr("June 1-3"),
                                           "groupSize" := JNum(4.0), "eventType" := JStr("other")]))
            == Success(BuyoutInquiryData("A", email, "", "", "June 1-3", 4.0, "other", ""))
  {
    var f := map["name" := JStr("A"), "email" := JStr(email), "preferredDates" := JStr("June 1-3"),
                 "groupSize" := JNum(4.0), "eventType" := JStr("other")];
    assert "phone" !in f && "company" !in f && "additionalDetails" !in f;
    assert f["name"] == JStr("A") && f["email"] == JStr(email) && f["preferredDates"] == JStr("June 1-3");
    assert f["eventType"] == JStr("other") && Get(f, "groupSize") == Some(JNum(4.0));
  }

  /** A zero group size is refused with the schema's message. */
  lemma ZeroGroupSizeRefused(email: string)
    requires Email.IsEmail(email)
    ensures ValidateBuyoutInquiry(JObj(map["name" := JStr("A"), "email" := JStr(email), "preferredDates" := JStr("June"),
                                           "groupSize" := JNum(0.0), "eventType" := JStr("other")]))
            == Failure([Issue("groupSize", TooSmall("Group size is required"))])
  {
    var f := map["name" := JStr("A"), "email" := JStr(email), "preferredDates" := JStr("June"),
                 "groupSize" := JNum(0.0), "eventType" := JStr("other")];
    assert "phone" !in f && "company" !in f && "additionalDetails" !in f;
    assert f["name"] == JStr("A") && f["email"] == JStr(email) && f["preferredDates"] == JStr("June");
    assert f["eventType"] == JStr("other") && Get(f, "groupSize") == Some(JNum(0.0));
    assert NonEmptyString(f, "name", "Name is required").Pass?;
    assert EmailString(f, "email", "Enter a valid email").Pass?;
    assert DefaultedString(f, "phone") == Pass("") && DefaultedString(f, "company") == Pass("");
    assert NonEmptyString(f, "preferredDates", "Preferred dates are required").Pass?;
    assert CoercedAtLeastOne(f, "groupSize", "Group size is required") == Reject(Issue("groupSize", TooSmall("Group size is required")));
    assert NonEmptyString(f, "eventType", "Event type is required").Pass?;
    assert DefaultedString(f, "additionalDetails") == Pass("");
  }

  /** A numeral string is coerced; the empty string coerces to 0; `1.5` as a string is outside this model of `Number`. */
  lemma GroupSizeCoercion()
    ensures NumberOf(Some(JStr("12"))) == Some(12.0)
    ensures NumberOf(Some(JStr(""))) == Some(0.0)
    ensures NumberOf(None).None?
  {
    assert DecimalValue("12") == 12 by {
      assert "12"[..1] == "1";
    }
  }
}
