# Limestone Fields — intake, content and seeding model

Limestone Fields is the marketing site for a cabin retreat. It is a Next.js
application backed by a Sanity content store. This project models its
core in Dafny.

- **Intake schemas.** `lib/validations.ts` defines the waitlist and buyout-inquiry
  zod schemas. The wedding form defines its own schema and remaps a wedding
  inquiry into the buyout-inquiry payload.
- **Intake routes.** `POST /api/waitlist` and `POST /api/buyout-inquiry` parse the
  body and create one document in the content store. They answer 200, 400 or 500.
- **Client forms.** Each form tracks its `submitted` and `isSubmitting` state
  around a single `fetch`. The waitlist form also has an interest-checkbox toggle.
- **Section renderer.** `PageSections` turns a page's section list into page regions.
- **Studio helpers.** These are the Studio's list options, initial status values
  and list-preview labels.
- **Content scripts.** `seed-sanity` writes every seeded document by id.
  `cleanup-sanity` deletes whichever seeded ids it finds, in one transaction.

## How the model is built

**Data.**
- JSON payloads are the `Json.Json` datatype. An absent key stands for `undefined`.
- A zod schema is a validator from `Json` to `Result`. A `Result` is either the
  parsed record or the list of issues, one per failing field in field order
  (zod's per-element issues inside `interests` are one issue on the field).
- `z.string().email()` is the predicate `Email.IsEmail`, written after the
  library's email pattern. Every theorem except the concrete examples holds
  for any definition of that predicate.

**State.**
- The content store is a class with the documents it has created and a count
  of `create` calls.
- Each form is a class holding its fields and the requests it has sent.
- The seed and cleanup scripts work on a `Dataset` class, whose documents are
  a map from id to document.

**Parameters.** Outside inputs are passed in:
- the clock reading, as `now` and `localDate`;
- whether a store `create` fails, as `createFails`;
- a body that is not JSON, as `None`;
- the outcome of a `fetch`, as a `FetchResult`;
- what the cleanup's GROQ lookup returns, constrained by `IsLookupOf`.

**Seeded text.** The seeded documents keep their text exactly as the script
has it, in `SeedCopy` and `FaqEntries`. The builders and every statement about
ids, order and storage are stated for any text, of type `Copy`. They are then
applied to the script's own text.

**Where the specification and the code differ, the model follows the code.**
- The wedding form files its inquiries with eventType `"Wedding/Celebration"`.
  That is the select's label. The Studio list value is `wedding_celebration`.
  `WeddingInquiryForm.EventTypeOutsideStudioList` states this.
- Neither route writes a `status`. The initial value `new` exists only in the
  Studio schemas. `RecordShape` states this for both routes.
- The renderer returns one slot per section, with `null` for an unknown
  `_type`.
- A text section always renders its card, even when it has no headline and
  no body.
- The waitlist route accepts any strings as interests. It does not require
  them to be among the four checkbox options.
- The group size only has to be a number `>= 1`. A value such as `1.5` is accepted.

## Model

| member | source | states |
|---|---|---|
| Common.NumberToString | scripts/seed-sanity.ts:150 | `${n}` of a whole number is a non-empty string of digits with no leading zero |
| Common.DecimalValueOfNumberToString | scripts/seed-sanity.ts:150 | reading a numeral back as a decimal gives the number it was made from |
| Common.NumberToStringInjective | scripts/seed-sanity.ts:150 | different numbers have different numerals, so `faq-${i + 1}` ids differ |
| Common.Or | components/forms/WeddingInquiryForm.tsx:56 | `s \|\| fallback` is `s` when it is non-empty and the fallback when it is empty |
| Json.AsStrings | lib/validations.ts:7 | an array reads as strings exactly when every item is a string, and then item by item |
| Json.AsStringsOfStringArray | lib/validations.ts:7 | a list of strings sent as a JSON array reads back as the same list |
| Json.StringArrayOfAsStrings | lib/validations.ts:7 | an array that reads as strings is exactly the encoding of those strings |
| Email.SimpleAddress | lib/validations.ts:6 | every `local@host.tld`, with alphanumeric local part and host and a top level of at least two letters, passes the email check |
| Email.RefusedWithoutAt | lib/validations.ts:6 | a string without `@` fails the email check |
| Email.AcceptedExampleJane | lib/validations.ts:6 | `jane@x.com` passes the email check |
| Email.IsEmail | lib/validations.ts:6 | the email pattern; an address it accepts has a local part of at least one character, not starting with `.`, before its first `@`, and at least `a.bc` after it |
| Validations.NonEmptyString | lib/validations.ts:4 | `z.string().min(1)` passes exactly a present non-empty string, returns it unchanged, and reports its issue on the field's own path |
| Validations.EmailString | lib/validations.ts:6 | `z.string().email()` passes exactly a present string that passes the email check |
| Validations.DefaultedString | lib/validations.ts:15 | `.default('')` passes an absent field as `""` and a string as itself, and refuses anything else, `null` included |
| Validations.DefaultedStringList | lib/validations.ts:7 | an absent interests field becomes `[]`; an array of strings passes as those strings; anything else is refused |
| Validations.CoercedAtLeastOne | lib/validations.ts:18 | `z.coerce.number().min(1)` passes exactly when `Number(v)` is a number that is at least 1, and yields that number |
| Validations.NumberOf | lib/validations.ts:18 | `Number()` under `z.coerce`: `undefined`, arrays and objects are NaN, and a number is itself |
| Validations.NumberOfNumeral | lib/validations.ts:18 | the numeral `${n}` of a whole number coerces back to `n` |
| Validations.ValidateWaitlist | lib/validations.ts:3-8 | acceptance exactly when the names are non-empty strings, the email passes and the interests are absent or strings; the parsed record repeats each field; a refusal lists at least one issue |
| Validations.WaitlistRoundTrip | lib/validations.ts:3-8 | a serialised waitlist record is accepted exactly when it satisfies the schema's constraints, and then parses back to itself |
| Validations.WaitlistIdempotent | components/forms/WaitlistForm.tsx:35 | parsing `JSON.stringify` of a parsed payload gives the same parse, so the form's re-parse and the route's parse agree |
| Validations.ValidateBuyoutInquiry | lib/validations.ts:12-21 | acceptance exactly when name, email, dates and event type pass, group size coerces to at least 1 and the optional fields are absent or strings; absent optionals become `""` |
| Validations.BuyoutInquiryRoundTrip | lib/validations.ts:12-21 | a serialised inquiry is accepted exactly when it satisfies the schema's constraints, and then parses back to itself |
| Validations.BuyoutInquiryIdempotent | lib/validations.ts:12-21 | parsing a serialised parsed inquiry gives the same parse |
| Validations.EmptyFirstNameRefused | lib/validations.ts:4 | an empty first name gets exactly one issue, "First name is required", on `firstName` |
| Validations.BadEmailRefused | lib/validations.ts:6 | an address the email check refuses gets exactly one issue, "Enter a valid email", on `email` |
| Validations.UntrimmedNamesAccepted | lib/validations.ts:4-5 | names are not trimmed: a single space passes, and absent interests become `[]` |
| Validations.GroupSizeAndEventType | lib/validations.ts:18-19 | with the other fields valid, an inquiry is accepted exactly when groupSize >= 1 (fractions included) and eventType is non-empty |
| Validations.OptionalFieldsDefault | lib/validations.ts:15-20 | an inquiry without phone, company or details is accepted with `""` for each of them |
| Validations.ZeroGroupSizeRefused | lib/validations.ts:18 | group size 0 gets exactly one issue, "Group size is required" |
| Validations.GroupSizeCoercion | lib/validations.ts:18 | `Number("12")` is 12, `Number("")` is 0, and `undefined` is NaN |
| WaitlistRoute.Record | app/api/waitlist/route.ts:16-23 | the created document has exactly the keys `_type`, the four fields and `submittedAt` |
| WaitlistRoute.Attempted | app/api/waitlist/route.ts:7-23 | a document reaches `create` exactly when the body is JSON the schema accepts, and it has the record's keys and the request time |
| WaitlistRoute.Outcome | app/api/waitlist/route.ts:5-30 | the status is 200, 400 or 500; 400 exactly when the schema refuses a JSON body; 200 exactly when it accepts it and `create` succeeds |
| WaitlistRoute.Stored | app/api/waitlist/route.ts:16-25 | at most one document is stored, and one exactly when a document reaches `create` and it succeeds |
| WaitlistRoute.Post | app/api/waitlist/route.ts:5-30 | the response is the outcome for the body; the store gains exactly the stored documents; `create` is called once exactly when the body parses |
| WaitlistRoute.InvalidPayloadRefused | app/api/waitlist/route.ts:8-12 | the answer is 400 exactly when the schema refuses the payload, and a refused payload creates nothing |
| WaitlistRoute.MalformedBodyIsServerError | app/api/waitlist/route.ts:26-29 | a body that is not JSON gets 500, never reaches `create` and stores nothing |
| WaitlistRoute.StatusMatchesStore | app/api/waitlist/route.ts:10-29 | 200 exactly when one document is stored, otherwise none is stored; 500 exactly when the body is not JSON or `create` fails |
| WaitlistRoute.ValidPayloadStored | app/api/waitlist/route.ts:14-25 | a valid payload with a working store gets 200 and stores its record, which the schema reads back as the same parse |
| WaitlistRoute.RecordShape | app/api/waitlist/route.ts:17-22 | the record is a `waitlistSubmission` stamped with the request time, and has no `status` |
| WaitlistRoute.RecordReadsBack | app/api/waitlist/route.ts:14-23 | the schema reads a stored record back as the data it was made from |
| WaitlistRoute.ResubmissionStoresTwice | app/api/waitlist/route.ts:16-25 | two identical valid posts store two identical documents: there is no deduplication |
| ContentStore.Client.Create | app/api/waitlist/route.ts:16-23 | a create that succeeds appends the document; a failed one stores nothing; every call is counted |
| BuyoutInquiryRoute.Record | app/api/buyout-inquiry/route.ts:16-27 | the created document has exactly `_type`, the eight fields and `submittedAt` |
| BuyoutInquiryRoute.Attempted | app/api/buyout-inquiry/route.ts:7-27 | a document reaches `create` exactly when the body is JSON the schema accepts, and it has the record's keys and the request time |
| BuyoutInquiryRoute.Outcome | app/api/buyout-inquiry/route.ts:5-34 | the status is 200, 400 or 500; 400 exactly when the schema refuses a JSON body; 200 exactly when it accepts it and `create` succeeds |
| BuyoutInquiryRoute.Stored | app/api/buyout-inquiry/route.ts:16-29 | at most one document is stored, and one exactly when a document reaches `create` and it succeeds |
| BuyoutInquiryRoute.Post | app/api/buyout-inquiry/route.ts:5-34 | the response is the outcome for the body; the store gains exactly the stored documents; `create` is called once exactly when the body parses |
| BuyoutInquiryRoute.InvalidPayloadRefused | app/api/buyout-inquiry/route.ts:8-12 | the answer is 400 exactly when the schema refuses the payload, and a refused payload creates nothing |
| BuyoutInquiryRoute.MalformedBodyIsServerError | app/api/buyout-inquiry/route.ts:30-33 | a body that is not JSON gets 500 and stores nothing |
| BuyoutInquiryRoute.StatusMatchesStore | app/api/buyout-inquiry/route.ts:10-33 | 200 exactly when one document is stored; 500 exactly when the body is not JSON or `create` fails |
| BuyoutInquiryRoute.ValidPayloadStored | app/api/buyout-inquiry/route.ts:14-29 | a valid payload with a working store gets 200, and its record reads back as the same parse, with the coerced group size |
| BuyoutInquiryRoute.RecordShape | app/api/buyout-inquiry/route.ts:17-26 | the record is a `buyoutInquiry` stamped with the request time, holds a numeric group size, and has no `status` or `notes` |
| BuyoutInquiryRoute.RecordReadsBack | app/api/buyout-inquiry/route.ts:14-27 | the schema reads a stored record back as the data it was made from |
| BuyoutInquirySchema.OptionValues | sanity/schemas/buyoutInquiry.ts:43-74 | the event-type values and the status values are the listed ones, each list without duplicates, and the initial status is the first one |
| BuyoutInquirySchema.PreviewOf | sanity/schemas/buyoutInquiry.ts:90-96 | the title is the name or "Untitled inquiry", never empty; the subtitle is the company (or "No company"), then the event type (or "Event type?"), then the date label (or "No date"), each part fixed by its own slice |
| BuyoutInquirySchema.EmptyDocumentPreview | sanity/schemas/buyoutInquiry.ts:90-96 | a document with no fields gets "Untitled inquiry" and "No company • Event type? • No date" |
| WaitlistSubmissionSchema.StatusValues | sanity/schemas/waitlistSubmission.ts:39-45 | the three statuses are distinct, and the initial one is the first |
| WaitlistSubmissionSchema.TrimStart | sanity/schemas/waitlistSubmission.ts:57 | what remains is a suffix that does not start with white space, and everything dropped is white space |
| WaitlistSubmissionSchema.TrimEnd | sanity/schemas/waitlistSubmission.ts:57 | what remains is a prefix that does not end with white space, and everything dropped is white space |
| WaitlistSubmissionSchema.Trim | sanity/schemas/waitlistSubmission.ts:57 | the trimmed string is empty or neither starts nor ends with white space |
| WaitlistSubmissionSchema.TrimKeepsMiddle | sanity/schemas/waitlistSubmission.ts:57 | the trimmed string is one contiguous part of the input |
| WaitlistSubmissionSchema.TrimDropsWhiteSpace | sanity/schemas/waitlistSubmission.ts:57 | every character before and after that part is white space |
| WaitlistSubmissionSchema.TrimUntrimmable | sanity/schemas/waitlistSubmission.ts:57 | a string without surrounding white space trims to itself |
| WaitlistSubmissionSchema.TrimBlank | sanity/schemas/waitlistSubmission.ts:57 | a string of white space only trims to `""` |
| WaitlistSubmissionSchema.PreviewTitle | sanity/schemas/waitlistSubmission.ts:57 | the title is the two names (absent ones as `""`) joined by a space and trimmed, or the email when that is empty; it is undefined only when the email is |
| WaitlistSubmissionSchema.PreviewSubtitle | sanity/schemas/waitlistSubmission.ts:58-60 | without a submission time the subtitle is the email; with one it is the email, a bullet and the date |
| WaitlistSubmissionSchema.FullNameTitle | sanity/schemas/waitlistSubmission.ts:57 | names without surrounding white space give the title "first last" |
| WaitlistSubmissionSchema.BlankNameTitle | sanity/schemas/waitlistSubmission.ts:57 | names that are absent or blank give the email as the title |
| WaitlistSubmissionSchema.AbsentFirstNameTitle | sanity/schemas/waitlistSubmission.ts:57 | without a first name the joining space is trimmed away: the title is the trimmed last name, or the email when that is blank |
| WaitlistForm.Added | components/forms/WaitlistForm.tsx:127 | `set.add`: the result holds exactly the old elements and the new one |
| WaitlistForm.Removed | components/forms/WaitlistForm.tsx:129 | `set.delete`: the result holds exactly the old elements except the deleted one, and is no longer |
| WaitlistForm.Dedup | components/forms/WaitlistForm.tsx:125 | `new Set(list)` holds each element of the list exactly once |
| WaitlistForm.StringSet.constructor | components/forms/WaitlistForm.tsx:125 | building the set element by element gives the deduplicated list in first-occurrence order |
| WaitlistForm.StringSet.Add | components/forms/WaitlistForm.tsx:127 | adds an element at the end when it is new, and changes nothing otherwise |
| WaitlistForm.StringSet.Delete | components/forms/WaitlistForm.tsx:129 | removes the element and keeps the rest in order |
| WaitlistForm.StringSet.ToArray | components/forms/WaitlistForm.tsx:131 | `Array.from(set)` lists the elements in insertion order |
| WaitlistForm.DedupDistinct | components/forms/WaitlistForm.tsx:125 | a list without duplicates is its own set |
| WaitlistForm.RemovedAt | components/forms/WaitlistForm.tsx:129 | deleting the element at position k of a duplicate-free list closes the gap |
| WaitlistForm.RemovedAbsent | components/forms/WaitlistForm.tsx:129 | deleting an absent element changes nothing |
| WaitlistForm.RemovedKeepsDistinct | components/forms/WaitlistForm.tsx:129 | deleting keeps a list free of duplicates |
| WaitlistForm.Toggled | components/forms/WaitlistForm.tsx:125-131 | the toggled list has no duplicates, holds the interest exactly when the box is checked, and holds every other interest exactly when the old list did |
| WaitlistForm.CheckAdds | components/forms/WaitlistForm.tsx:125-131 | checking leaves the interest in the list exactly once, with all the others kept; a new interest goes last |
| WaitlistForm.UncheckRemoves | components/forms/WaitlistForm.tsx:125-131 | unchecking removes the interest, keeps every other interest, and leaves no duplicates |
| WaitlistForm.ToggleKeepsOrder | components/forms/WaitlistForm.tsx:125-131 | on a duplicate-free list, checking appends or changes nothing; unchecking removes exactly that position |
| WaitlistForm.ToggleWithinOptions | components/forms/WaitlistForm.tsx:19-24 | toggling an offered interest on offered interests leaves only offered interests |
| WaitlistForm.Form.constructor | components/forms/WaitlistForm.tsx:27-31 | the form starts unsubmitted with no interests |
| WaitlistForm.Form.OnCheckedChange | components/forms/WaitlistForm.tsx:122-132 | the field becomes the toggled list, the checkbox shows as `checked`, and nothing else changes |
| WaitlistForm.Form.OnSubmit | components/forms/WaitlistForm.tsx:33-52 | sends the serialised data, whose interests are the checked boxes, and the schema parses it back to the same data; submitted and reset exactly after an ok response |
| BuyoutInquiryForm.OptionsMatchStudio | components/forms/BuyoutInquiryForm.tsx:199-202 | the select offers exactly the Studio's event types, with the same labels and values in the same order |
| BuyoutInquiryForm.OptionsAccepted | components/forms/BuyoutInquiryForm.tsx:199-202 | every option value passes the schema's non-empty event-type rule |
| BuyoutInquiryForm.DefaultValuesRefused | components/forms/BuyoutInquiryForm.tsx:33-42 | an untouched form is refused with five issues, one per required field, in field order |
| BuyoutInquiryForm.ClearedGroupSizeRefused | components/forms/BuyoutInquiryForm.tsx:173-176 | a cleared group size (`undefined`) is refused whatever the other fields hold |
| BuyoutInquiryForm.Form.constructor | components/forms/BuyoutInquiryForm.tsx:28-29 | the form starts unsubmitted and not submitting |
| BuyoutInquiryForm.Form.OnSubmit | components/forms/BuyoutInquiryForm.tsx:45-62 | sends the data once while submitting; submitted exactly after an ok response; never left submitting |
| WeddingInquiryForm.ValidateWedding | components/forms/WeddingInquiryForm.tsx:20-28 | acceptance exactly when name, email, wedding date and guest count pass and the optional fields are absent or strings |
| WeddingInquiryForm.ToBuyoutInquiry | components/forms/WeddingInquiryForm.tsx:53-62 | the remap keeps the name and email, takes the dates from the wedding date and the group size from the guest count, and files the inquiry as "Wedding/Celebration" |
| WeddingInquiryForm.CompanyLabel | components/forms/WeddingInquiryForm.tsx:57 | the company label starts with "Wedding: " and the name, and is longer than that exactly when a partner name is given |
| WeddingInquiryForm.CompanyNamesTheCouple | components/forms/WeddingInquiryForm.tsx:57 | the company label starts "Wedding: <name>" and adds " & <partner>" exactly when a partner is given |
| WeddingInquiryForm.OptionalFieldsPassThrough | components/forms/WeddingInquiryForm.tsx:56-61 | phone and details pass through unchanged |
| WeddingInquiryForm.RemapAccepted | components/forms/WeddingInquiryForm.tsx:53-67 | every accepted wedding inquiry, once remapped and serialised, is accepted by the buyout schema and read back unchanged |
| WeddingInquiryForm.WeddingPayloadReachesStore | components/forms/WeddingInquiryForm.tsx:49-68 | an accepted wedding payload gets 200 from the buyout route with a working store and is stored as one document |
| WeddingInquiryForm.EventTypeOutsideStudioList | components/forms/WeddingInquiryForm.tsx:60 | "Wedding/Celebration" is not among the Studio's event-type values, yet it passes the schema |
| WeddingInquiryForm.CoupleAccepted | components/forms/WeddingInquiryForm.tsx:20-28 | a couple's inquiry is accepted with phone and details defaulted to `""` |
| WeddingInquiryForm.CoupleRemapped | components/forms/WeddingInquiryForm.tsx:53-62 | that inquiry is filed under company "Wedding: Jo & Sam" |
| WeddingInquiryForm.Form.constructor | components/forms/WeddingInquiryForm.tsx:33-34 | the form starts unsubmitted and not submitting |
| WeddingInquiryForm.Form.OnSubmit | components/forms/WeddingInquiryForm.tsx:49-78 | sends the remapped inquiry once while submitting, and the buyout schema accepts it; submitted exactly after an ok response; never left submitting |
| SanityTypes.TagsIdentifyVariants | sanity/types.ts:88-94 | the six `_type` tags are distinct, and two sections share a tag exactly when they are the same variant |
| SanityTypes.TagsMatchPageSchema | sanity/schemas/page.ts:53-149 | the tags are, in order, the object types the page schema admits in `sections` (both lists are transcribed from the source, so this checks the transcription) |
| SanityTypes.ParseVariant | sanity/types.ts:53 | a recognised variant string is the name of the variant it reads as |
| SanityTypes.VariantRoundTrip | sanity/schemas/page.ts:110 | every variant's name reads back as that variant |
| PageSections.Shown | components/sections/PageSections.tsx:28 | `{s && ...}`: the element appears exactly when `s` is truthy, showing `s` |
| PageSections.RenderText | components/sections/PageSections.tsx:22-45 | the card always appears; heading and separator exactly when the headline is truthy; the body whenever present |
| PageSections.RenderImage | components/sections/PageSections.tsx:47-68 | the image appears exactly when set, at 1600×900, with a non-empty alt text; the caption exactly when truthy |
| PageSections.RenderCard | components/sections/PageSections.tsx:92-104 | a value-prop card shows its headline and body exactly when each is truthy |
| PageSections.RenderCards | components/sections/PageSections.tsx:91-106 | one card per entry, in order |
| PageSections.RenderValueProp | components/sections/PageSections.tsx:70-111 | heading and intro exactly when truthy; the card grid exactly when there is at least one card |
| PageSections.RenderCta | components/sections/PageSections.tsx:113-143 | the button appears exactly when both its text and link are truthy; the background is muted or secondary exactly for those variants |
| PageSections.RenderCabinCard | components/sections/PageSections.tsx:165-204 | the photo at 1200×900 exactly when an image is set, else "Image coming soon"; the details exactly when a cabin is linked; the link goes to `/stay` |
| PageSections.RenderCabinCards | components/sections/PageSections.tsx:164-205 | one card per item, in order |
| PageSections.RenderCabinPreview | components/sections/PageSections.tsx:145-210 | the header exactly when the headline is truthy; the grid exactly when at least one cabin is listed |
| PageSections.RenderColumn | components/sections/PageSections.tsx:217-260 | a column's image appears at 800×600 with empty alt text exactly when set, and its heading exactly when truthy |
| PageSections.RenderTwoColumn | components/sections/PageSections.tsx:212-264 | left and right columns render from their own fields |
| PageSections.RenderSection | components/sections/PageSections.tsx:21-268 | a section renders nothing exactly when its `_type` is none of the six (the `Section` type makes `Unrecognised` carry only such tags); a known one renders a region carrying its `_key` |
| PageSections.Slots | components/sections/PageSections.tsx:20-269 | one slot per section, the i-th rendered from the i-th section |
| PageSections.PageSections | components/sections/PageSections.tsx:15-272 | nothing at all exactly for an absent or empty list; otherwise the slots |
| PageSections.SlotsAppend | components/sections/PageSections.tsx:20-21 | rendering a concatenation is concatenating the renderings |
| PageSections.ShownMatchesRecognised | components/sections/PageSections.tsx:20-267 | as many regions appear as there are recognised sections |
| PageSections.CountRecognisedBlanked | components/sections/PageSections.tsx:266-267 | giving one recognised section an unknown tag leaves one recognised section fewer |
| PageSections.UnknownTagBlanksOneSlot | components/sections/PageSections.tsx:266-267 | retagging a recognised section with a `_type` outside the six blanks exactly its own slot: one region fewer, every other slot unchanged |
| PageSections.StoredVariantBackground | components/sections/PageSections.tsx:117-121 | the stored `variant` string gives the muted background exactly when it is `'muted'`, the secondary one exactly when it is `'secondary'`, and neither otherwise |
| PageSections.EmptyTextSectionRendersCard | components/sections/PageSections.tsx:22-45 | a text section with no headline and no body still renders its card |
| PageSections.ImageAltFallback | components/sections/PageSections.tsx:55 | the alt text is `alt`, else the caption, else "Section image" |
| PageSections.SubheadNeedsHeadline | components/sections/PageSections.tsx:149-158 | without a headline the subhead is not shown either |
| SeedSanity.MakeBlock | scripts/seed-sanity.ts:29-34 | `block(text)` is a normal-style block of one span holding the text |
| SeedSanity.Blocks | scripts/seed-sanity.ts:40 | one block per paragraph, in order |
| SeedSanity.BlockShowsText | scripts/seed-sanity.ts:29-34 | a block shows exactly the text it was built from |
| SeedSanity.ParagraphsOfBlocks | scripts/seed-sanity.ts:40 | the blocks built from paragraphs show those paragraphs, in order |
| SeedSanity.MakeTextSection | scripts/seed-sanity.ts:36-41 | `textSection` builds a `textSection` with the given key and headline whose body shows the paragraphs |
| SeedSanity.MakeCabin | scripts/seed-sanity.ts:59-124 | a seeded cabin has its id, slug, order and title, no images, and a description showing its paragraphs |
| SeedSanity.MakePolicy | scripts/seed-sanity.ts:157-197 | a seeded policy has its id, slug, order and title, and content showing its paragraphs |
| SeedSanity.MakePage | scripts/seed-sanity.ts:200-274 | a seeded page has its id, slug and title, and exactly one section, built by `textSection` |
| SeedSanity.NumberedFaqs | scripts/seed-sanity.ts:149-155 | the i-th FAQ (from 0) is `faq-<i+1>`, ordered i+1, with its question and one answer block |
| SeedSanity.FaqDocuments | scripts/seed-sanity.ts:149-155 | one FAQ document per entry, in order |
| SeedSanity.PolicyDocuments | scripts/seed-sanity.ts:198 | each policy becomes a document of type `policy` |
| SeedSanity.FaqIdList | scripts/seed-sanity.ts:150 | the FAQ ids are `faq-1` to `faq-<n>` |
| SeedSanity.CabinIds | scripts/seed-sanity.ts:61-91 | the cabin ids are `cabin-standard-cabin` and `cabin-cabin-suite`, whatever the text |
| SeedSanity.FaqIds | scripts/seed-sanity.ts:150 | the FAQ documents carry ids `faq-1` to `faq-<n>` for n entries |
| SeedSanity.PolicyIds | scripts/seed-sanity.ts:159-190 | the policy ids are the four listed, in order |
| SeedSanity.PageIds | scripts/seed-sanity.ts:202-260 | the page ids are the five listed, in order |
| SeedSanity.SeedIds | scripts/seed-sanity.ts:280-301 | the ids are written in the order settings, cabins, FAQs, policies, pages, whatever the text |
| SeedSanity.FaqIdsDistinct | scripts/seed-sanity.ts:150 | no two FAQ ids coincide |
| SeedSanity.HeadIdsDistinct | scripts/seed-sanity.ts:44-91 | the settings and cabin ids are distinct |
| SeedSanity.PolicyIdsDistinct | scripts/seed-sanity.ts:159-190 | the policy ids are distinct |
| SeedSanity.PageIdsDistinct | scripts/seed-sanity.ts:202-260 | the page ids are distinct |
| SeedSanity.SeedIdsDistinct | scripts/seed-sanity.ts:43-274 | no two seeded documents share an id, however many FAQ entries there are |
| SeedSanity.SeededPageRenders | scripts/seed-sanity.ts:36-41 | a seeded page renders one text card with its key, its heading and separator when the headline is non-empty, and its paragraphs |
| SeedSanity.Dataset.CreateOrReplace | scripts/seed-sanity.ts:281 | writes the document under its id, replacing what was there |
| SeedSanity.Upserted | scripts/seed-sanity.ts:281-301 | writing documents in order keeps every id already present and leaves every written id present |
| SeedSanity.UpsertedAppend | scripts/seed-sanity.ts:281-301 | writing one list after another is writing their concatenation |
| SeedSanity.UpsertedKeys | scripts/seed-sanity.ts:281-301 | afterwards the dataset holds exactly the ids it held and the ids written |
| SeedSanity.UpsertedUntouched | scripts/seed-sanity.ts:281-301 | a document whose id is not written is kept as it was |
| SeedSanity.UpsertedOverwrites | scripts/seed-sanity.ts:281-301 | what a written id ends up holding does not depend on the prior dataset |
| SeedSanity.UpsertedStores | scripts/seed-sanity.ts:281-301 | with distinct ids, every written document is found under its id |
| SeedSanity.UpsertedIdempotent | scripts/seed-sanity.ts:276-308 | seeding twice leaves the dataset as seeding once |
| SeedSanity.UpsertAll | scripts/seed-sanity.ts:283-286 | `createOrReplace` of each document in order leaves the dataset as writing the list |
| SeedSanity.SeedWith | scripts/seed-sanity.ts:276-301 | the five write phases together write the seed documents in order |
| SeedSanity.Seed | scripts/seed-sanity.ts:276-308 | `seed()` leaves the dataset as writing the script's documents in order |
| SeedSanity.SeedStoresEveryDocument | scripts/seed-sanity.ts:276-301 | after the seed, every seeded document is found under its id |
| SeedSanity.FaqCount | scripts/seed-sanity.ts:126-148 | the script lists nine FAQ entries |
| CleanupSanity.SeededIds | scripts/cleanup-sanity.ts:23-37 | the cleanup script's hard-coded list has 21 ids |
| CleanupSanity.SeededIdsAreSeedIdList | scripts/cleanup-sanity.ts:23-37 | the cleanup list, with its nine FAQ ids spelled out, is the seed's id list for nine entries |
| CleanupSanity.SeededIdsMatchSeed | scripts/cleanup-sanity.ts:23-37 | for nine FAQ entries, the cleanup list is exactly the seeded ids in seed order, without duplicates |
| CleanupSanity.SeededIdsMatchScript | scripts/cleanup-sanity.ts:23-37 | the cleanup list is exactly the ids of the script's own seed |
| CleanupSanity.Without | scripts/cleanup-sanity.ts:61 | the dataset after the commit keeps exactly the documents whose id is not deleted, unchanged |
| CleanupSanity.Transaction.constructor | scripts/cleanup-sanity.ts:54 | a new transaction queues nothing |
| CleanupSanity.Transaction.Delete | scripts/cleanup-sanity.ts:58 | queues one more delete, at the end |
| CleanupSanity.Transaction.Commit | scripts/cleanup-sanity.ts:61 | removes every queued id at once |
| CleanupSanity.Cleanup | scripts/cleanup-sanity.ts:43-61 | no transaction exactly when the lookup found nothing; otherwise one delete per id found, in order, committed together |
| CleanupSanity.CleanupRemovesSeeded | scripts/cleanup-sanity.ts:43-61 | deleting what the lookup found removes every seeded id and keeps everything else |
| CleanupSanity.CleanupUndoesSeed | scripts/cleanup-sanity.ts:43-61 | cleanup after a seed restores a dataset that held no seeded id |
| CleanupSanity.SeedThenCleanupCommits | scripts/cleanup-sanity.ts:49-52 | after a seed the lookup finds every seeded id, so the commit is reached |

## Left out

- UI components and the other routes are not part of this model. That covers
  the FAQ route and the GROQ queries, the desk structure, and the schemas of
  cabins, pages, policies and site settings. The page schema is used only for
  its list of section types.
- generate-site-updates is not part of this model.
- Validations.NumberOf models `Number()` only on numbers, booleans, `null`,
  `undefined` and strings of decimal digits. Signed, fractional, exponent,
  whitespace-padded and `Infinity` strings, and arrays, are treated as NaN.
  Numbers are exact reals, so floating-point rounding and overflow are not
  modelled.
- urlForImage, PortableText rendering, styling and `next/image` are not
  modelled. A picture is the asset and the requested size.
- react-hook-form plumbing is not modelled: the resolver, field registration,
  error display and `form.reset()` of the text fields.
- The waitlist form's `isSubmitting` comes from react-hook-form, so it is not
  modelled.
- The store's and `fetch`'s internals are parameters. So are the clock, the
  local date format and the GROQ lookup. Console logging, `process.env`,
  `process.exit` and React's render timing are left out.
- The seed's nested `_type` fields (`span`, `block`, `slug`) and `markDefs`
  are not modelled. A write failure in the middle of `seed()` is also left out.
- The commit's `visibility: 'async'` is left out.
- Validations.DefaultedStringList: zod reports one issue per rejected array
  element, at path `['interests', i]`. The model reports a single issue on
  `interests`. Which payloads are accepted is the same; the issue list and its
  paths are not.
- BuyoutInquiryForm.Form.OnSubmit: the contract states the body sent, not that
  the route accepts it. That read-back is `Validations.BuyoutInquiryRoundTrip`,
  applied to the data the form library has already accepted.
- CleanupSanity.Cleanup: the GROQ lookup is a parameter. The lemmas assume it
  returns the present seeded ids (`IsLookupOf`); its order is not modelled.
- CleanupSanity.SeededIdsMatchSeed: the match is proved for every nine-entry
  FAQ list. In SeededIdsMatchScript, the script's own list has nine entries
  by FaqCount.
