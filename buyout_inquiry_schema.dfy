/**
 * The Studio document type `buyoutInquiry` (sanity/schemas/buyoutInquiry.ts):
 * its option lists, the status initial value and the list-preview labels.
 */
module BuyoutInquirySchema {
  import opened Common

  /** One entry of a Studio `options.list`. */
  datatype ListOption = ListOption(title: string, value: string)

  /** The values of an option list, in order. */
  function Values(options: seq<ListOption>): (vs: seq<string>)
    ensures |vs| == |options|
    ensures forall i :: 0 <= i < |options| ==> vs[i] == options[i].value
  {
    if options == [] then [] else [options[0].value] + Values(options[1..])
  }

  const EventTypes: seq<ListOption> := [
    ListOption("Executive Retreat", "executive_retreat"),
    ListOption("Creative Intensive", "creative_intensive"),
    ListOption("Wedding/Celebration", "wedding_celebration"),
    ListOption("Other", "other")
  ]

  const Statuses: seq<ListOption> := [
    ListOption("New", "new"),
    ListOption("Proposal Sent", "proposal_sent"),
    ListOption("Negotiating", "negotiating"),
    ListOption("Booked", "booked"),
    ListOption("Declined", "declined")
  ]

  const InitialStatus: string := "new"

  /** The event-type and status values are exactly these, distinct, and a new document starts as the first status. */
  lemma {:induction false} OptionValues()
    ensures Values(EventTypes) == ["executive_retreat", "creative_intensive", "wedding_celebration", "other"]
    ensures Values(Statuses) == ["new", "proposal_sent", "negotiating", "booked", "declined"]
    ensures NoDuplicates(Values(EventTypes)) && NoDuplicates(Values(Statuses))
    ensures InitialStatus == Values(Statuses)[0]
  {
    var e := Values(EventTypes);
    assert e[0] == "executive_retreat" && e[1] == "creative_intensive";
    assert e[2] == "wedding_celebration" && e[3] == "other";
    var s := Values(Statuses);
    assert s[0] == "new" && s[1] == "proposal_sent" && s[2] == "negotiating";
    assert s[3] == "booked" && s[4] == "declined";
  }

  /** The bullet that separates the parts of a preview subtitle. */
  const Separator: string := " \U{2022} "

  datatype Preview = Preview(title: string, subtitle: string)

  /**
   * `preview.prepare`. `localDate` stands for `toLocaleDateString()` of the
   * submission time, which is only consulted when `submittedAt` is truthy.
   */
  function PreviewOf(name: Option<string>, company: Option<string>, eventType: Option<string>,
                     submittedAt: Option<string>, localDate: string): (p: Preview)
    ensures p.title != ""
    ensures p.title == if Truthy(name) then name.value else "Untitled inquiry"
    ensures
      var head := OrElse(company, "No company") + Separator;
      |head| <= |p.subtitle| && p.subtitle[..|head|] == head
    ensures
      var tail := Separator + (if Truthy(submittedAt) then localDate else "No date");
      |tail| <= |p.subtitle| && p.subtitle[|p.subtitle| - |tail|..] == tail
    ensures
      var head := OrElse(company, "No company") + Separator;
      var tail := Separator + (if Truthy(submittedAt) then localDate else "No date");
      |head| + |tail| <= |p.subtitle| && p.subtitle[|head|..|p.subtitle| - |tail|] == OrElse(eventType, "Event type?")
  {
    var dateLabel := if Truthy(submittedAt) then localDate else "No date";
    var head, tail := OrElse(company, "No company") + Separator, Separator + dateLabel;
    var subtitle := head + OrElse(eventType, "Event type?") + tail;
    assert subtitle[..|head|] == head;
    assert subtitle[|subtitle| - |tail|..] == tail;
    assert subtitle[|head|..|subtitle| - |tail|] == OrElse(eventType, "Event type?");
    Preview(OrElse(name, "Untitled inquiry"), subtitle)
  }

  /** A document with no fields at all still gets readable labels. */
  lemma EmptyDocumentPreview(localDate: string)
    ensures PreviewOf(None, None, None, None, localDate)
         == Preview("Untitled inquiry", "No company" + Separator + "Event type?" + Separator + "No date")
  {
  }
}
