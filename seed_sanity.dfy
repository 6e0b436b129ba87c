/**
 * scripts/seed-sanity.ts: the builders `block` and `textSection`, the seeded
 * documents (site settings, cabins, FAQs, policies, pages; their text as the
 * script has it, byte for byte as decoded), the id and order derivation of
 * the FAQs, and `seed()`, which upserts every document in turn.
 */
module SeedSanity {
  import opened Common
  import opened SanityTypes
  import PageSections

  // ------------------------------------------------------------- builders

  /** `block(text)`: a normal-style block of one span. */
  function MakeBlock(text: string): (b: Block)
    ensures b.style == "normal" && |b.children| == 1 && b.children[0].text == text
  {
    Block("normal", [Span(text)])
  }

  /** The text a block shows: its spans one after another. */
  function PlainText(spans: seq<Span>): string {
    if spans == [] then "" else spans[0].text + PlainText(spans[1..])
  }

  /** `paragraphs.map((paragraph) => block(paragraph))`. */
  function Blocks(paragraphs: seq<string>): (bs: seq<Block>)
    ensures |bs| == |paragraphs|
    ensures forall i :: 0 <= i < |paragraphs| ==> bs[i] == MakeBlock(paragraphs[i])
  {
    if paragraphs == [] then [] else [MakeBlock(paragraphs[0])] + Blocks(paragraphs[1..])
  }

  /** The paragraphs a list of blocks shows, one per block. */
  function Paragraphs(bs: seq<Block>): (ps: seq<string>)
    ensures |ps| == |bs|
  {
    if bs == [] then [] else [PlainText(bs[0].children)] + Paragraphs(bs[1..])
  }

  /** A block shows exactly the text it was built from. */
  lemma BlockShowsText(text: string)
    ensures PlainText(MakeBlock(text).children) == text
  {
    assert MakeBlock(text).children[1..] == [];
  }

  /** The blocks built from some paragraphs show those paragraphs, in order. */
  lemma {:induction false} ParagraphsOfBlocks(paragraphs: seq<string>)
    ensures Paragraphs(Blocks(paragraphs)) == paragraphs
  {
    if paragraphs != [] {
      var bs := Blocks(paragraphs);
      ParagraphsOfBlocks(paragraphs[1..]);
      BlockShowsText(paragraphs[0]);
      assert bs[1..] == Blocks(paragraphs[1..]);
      assert [paragraphs[0]] + paragraphs[1..] == paragraphs;
    }
  }

  /** `textSection(key, headline, paragraphs)`. */
  function MakeTextSection(key: string, headline: string, paragraphs: seq<string>): (s: PageSection)
    ensures s.Text? && Tag(s) == "textSection" && Key(s) == key
    ensures s.text.headline == Some(headline)
    ensures s.text.body.Some? && Paragraphs(s.text.body.value) == paragraphs
  {
    ParagraphsOfBlocks(paragraphs);
    Text(TextSection(key, Some(headline), Some(Blocks(paragraphs))))
  }

  // ----------------------------------------------------------------- data

  /*
   * A seeded document is its identity (id, slug, order, section keys), which
   * the script spells out per document, and its prose. The prose is gathered
   * in one `Copy` value, and the FAQ entries in a list, so that what the
   * script does with identities can be stated for any prose; `SeedCopy` and
   * `FaqEntries` are the script's own.
   */

  datatype CabinCopy = CabinCopy(
    title: string, sleeps: string, bedType: string,
    features: seq<string>, description: seq<string>, included: seq<string>)

  datatype FaqCopy = FaqCopy(question: string, answer: string)

  datatype PolicyCopy = PolicyCopy(title: string, paragraphs: seq<string>)

  /** A page's title, hero text and its one text section's headline and paragraphs. */
  datatype PageCopy = PageCopy(
    title: string, heroHeadline: string, heroSubhead: string,
    headline: string, paragraphs: seq<string>)

  datatype Copy = Copy(
    settings: SiteSettings,
    standardCabin: CabinCopy,
    cabinSuite: CabinCopy,
    petPolicy: PolicyCopy,
    cancellationPolicy: PolicyCopy,
    checkInCheckOut: PolicyCopy,
    accessibility: PolicyCopy,
    home: PageCopy,
    stay: PageCopy,
    buyouts: PageCopy,
    story: PageCopy,
    contact: PageCopy)

  /** A cabin document: no images, its description one block per paragraph. */
  function MakeCabin(id: string, slug: string, squareFeet: int, order: int, c: CabinCopy): (cabin: Cabin)
    ensures cabin.id == id && cabin.slug == Some(Slug(slug)) && cabin.order == Some(order)
    ensures cabin.title == c.title && cabin.images == []
    ensures Paragraphs(cabin.description) == c.description
  {
    ParagraphsOfBlocks(c.description);
    Cabin(id, c.title, Some(Slug(slug)), squareFeet, c.sleeps, c.bedType, c.features,
      Blocks(c.description), c.included, [], Some(order))
  }

  function MakePolicy(id: string, slug: string, order: int, c: PolicyCopy): (p: Policy)
    ensures p.id == id && p.slug == Some(Slug(slug)) && p.order == Some(order) && p.title == c.title
    ensures Paragraphs(p.content) == c.paragraphs
  {
    ParagraphsOfBlocks(c.paragraphs);
    Policy(id, c.title, Some(Slug(slug)), Blocks(c.paragraphs), Some(order))
  }

  /** A seeded page: its id and slug, which the page type leaves out, and its content. */
  datatype SeedPage = SeedPage(id: string, slug: Slug, page: PageDocument)

  /** A page with hero text and one text section, and no hero image, call to action or SEO fields. */
  function MakePage(id: string, slug: string, key: string, c: PageCopy): (p: SeedPage)
    ensures p.id == id && p.slug == Slug(slug) && p.page.title == Some(c.title)
    ensures p.page.sections.Some? && |p.page.sections.value| == 1
    ensures p.page.sections.value[0] == MakeTextSection(key, c.headline, c.paragraphs)
  {
    SeedPage(id, Slug(slug), PageDocument(
      Some(c.title), Some(c.heroHeadline), Some(c.heroSubhead), None, None, None,
      Some([MakeTextSection(key, c.headline, c.paragraphs)]), None))
  }

  /** The FAQ documents: the i-th entry (from 0) is `faq-<i+1>`, ordered `i+1`, answered by one block. */
  function NumberedFaqs(entries: seq<FaqCopy>): (faqs: seq<Faq>)
    ensures |faqs| == |entries|
    ensures forall i :: 0 <= i < |entries| ==>
      && faqs[i].id == "faq-" + NumberToString(i + 1)
      && faqs[i].order == Some(i + 1)
      && faqs[i].question == entries[i].question
      && faqs[i].answer == [MakeBlock(entries[i].answer)]
  {
    seq(|entries|, i requires 0 <= i < |entries| =>
      Faq("faq-" + NumberToString(i + 1), entries[i].question, [MakeBlock(entries[i].answer)], Some(i + 1)))
  }

  // ------------------------------------------------------------ documents

  /** Every document the script writes, with its `_type`. */
  datatype SeedDocument =
    | SettingsDoc(settings: SiteSettings)
    | CabinDoc(cabin: Cabin)
    | FaqDoc(faq: Faq)
    | PolicyDoc(policy: Policy)
    | PageDoc(seedPage: SeedPage)

  function IdOf(d: SeedDocument): string {
    match d
    case SettingsDoc(_) => "siteSettings"
    case CabinDoc(c) => c.id
    case FaqDoc(f) => f.id
    case PolicyDoc(p) => p.id
    case PageDoc(p) => p.id
  }

  function TypeOf(d: SeedDocument): string {
    match d
    case SettingsDoc(_) => "siteSettings"
    case CabinDoc(_) => "cabin"
    case FaqDoc(_) => "faq"
    case PolicyDoc(_) => "policy"
    case PageDoc(_) => "page"
  }

  function CabinDocuments(copy: Copy): seq<SeedDocument> {
    [ CabinDoc(MakeCabin("cabin-standard-cabin", "standard-cabin", 256, 1, copy.standardCabin)),
      CabinDoc(MakeCabin("cabin-cabin-suite", "cabin-suite", 384, 2, copy.cabinSuite)) ]
  }

  function FaqDocuments(entries: seq<FaqCopy>): (ds: seq<SeedDocument>)
    ensures |ds| == |entries|
    ensures forall i :: 0 <= i < |ds| ==> ds[i] == FaqDoc(NumberedFaqs(entries)[i])
  {
    var faqs := NumberedFaqs(entries);
    seq(|faqs|, i requires 0 <= i < |faqs| => FaqDoc(faqs[i]))
  }

  /** `policies.map((policy) => ({ _type: 'policy', ...policy }))`: each policy becomes a `policy` document. */
  function PolicyDocuments(policies: seq<Policy>): (ds: seq<SeedDocument>)
    ensures |ds| == |policies|
    ensures forall i :: 0 <= i < |policies| ==> ds[i] == PolicyDoc(policies[i]) && TypeOf(ds[i]) == "policy"
  {
    seq(|policies|, i requires 0 <= i < |policies| => PolicyDoc(policies[i]))
  }

  function Policies(copy: Copy): seq<Policy> {
    [ MakePolicy("policy-pet-policy", "pet-policy", 1, copy.petPolicy),
      MakePolicy("policy-cancellation-policy", "cancellation-policy", 2, copy.cancellationPolicy),
      MakePolicy("policy-check-in-check-out", "check-in-check-out", 3, copy.checkInCheckOut),
      MakePolicy("policy-accessibility", "accessibility", 4, copy.accessibility) ]
  }

  function Pages(copy: Copy): seq<SeedPage> {
    [ MakePage("page-home", "home", "home-section-1", copy.home),
      MakePage("page-stay", "stay", "stay-section-1", copy.stay),
      MakePage("page-buyouts", "buyouts", "buyouts-section-1", copy.buyouts),
      MakePage("page-story", "story", "story-section-1", copy.story),
      MakePage("page-contact", "contact", "contact-section-1", copy.contact) ]
  }

  function PageDocuments(copy: Copy): seq<SeedDocument> {
    var pages := Pages(copy);
    seq(|pages|, i requires 0 <= i < |pages| => PageDoc(pages[i]))
  }

  /** The documents in the order `seed()` writes them. */
  function SeedDocuments(copy: Copy, faqs: seq<FaqCopy>): seq<SeedDocument> {
    [SettingsDoc(copy.settings)] + CabinDocuments(copy) + FaqDocuments(faqs)
      + PolicyDocuments(Policies(copy)) + PageDocuments(copy)
  }

  function Ids(docs: seq<SeedDocument>): (ids: seq<string>)
    ensures |ids| == |docs| && forall i :: 0 <= i < |docs| ==> ids[i] == IdOf(docs[i])
  {
    if docs == [] then [] else [IdOf(docs[0])] + Ids(docs[1..])
  }

  lemma {:induction false} IdsAppend(a: seq<SeedDocument>, b: seq<SeedDocument>)
    ensures Ids(a + b) == Ids(a) + Ids(b)
  {
    if a == [] {
      assert a + b == b;
    } else {
      assert (a + b)[0] == a[0] && (a + b)[1..] == a[1..] + b;
      IdsAppend(a[1..], b);
    }
  }

  const CabinIdList: seq<string> := ["cabin-standard-cabin", "cabin-cabin-suite"]

  /** `faq-1` to `faq-<n>`. */
  function FaqIdList(n: nat): (ids: seq<string>)
    ensures |ids| == n && forall i :: 0 <= i < n ==> ids[i] == "faq-" + NumberToString(i + 1)
  {
    seq(n, i requires 0 <= i < n => "faq-" + NumberToString(i + 1))
  }

  const PolicyIdList: seq<string> :=
    ["policy-pet-policy", "policy-cancellation-policy", "policy-check-in-check-out", "policy-accessibility"]

  const PageIdList: seq<string> := ["page-home", "page-stay", "page-buyouts", "page-story", "page-contact"]

  /** The ids of the seeded documents, in the order they are written, for `faqCount` FAQ entries. */
  function SeedIdList(faqCount: nat): seq<string> {
    ["siteSettings"] + CabinIdList + FaqIdList(faqCount) + PolicyIdList + PageIdList
  }

  lemma CabinIds(copy: Copy)
    ensures Ids(CabinDocuments(copy)) == CabinIdList
  {
  }

  lemma FaqIds(faqs: seq<FaqCopy>)
    ensures Ids(FaqDocuments(faqs)) == FaqIdList(|faqs|)
  {
  }

  lemma PolicyIds(copy: Copy)
    ensures Ids(PolicyDocuments(Policies(copy))) == PolicyIdList
  {
  }

  lemma PageIds(copy: Copy)
    ensures Ids(PageDocuments(copy)) == PageIdList
  {
  }

  /** Whatever the prose, the ids are written in this order, one FAQ id per FAQ entry. */
  lemma SeedIds(copy: Copy, faqs: seq<FaqCopy>)
    ensures Ids(SeedDocuments(copy, faqs)) == SeedIdList(|faqs|)
  {
    var c, f, p, g := CabinDocuments(copy), FaqDocuments(faqs), PolicyDocuments(Policies(copy)), PageDocuments(copy);
    IdsAppend([SettingsDoc(copy.settings)], c);
    IdsAppend([SettingsDoc(copy.settings)] + c, f);
    IdsAppend([SettingsDoc(copy.settings)] + c + f, p);
    IdsAppend([SettingsDoc(copy.settings)] + c + f + p, g);
    CabinIds(copy);
    FaqIds(faqs);
    PolicyIds(copy);
    PageIds(copy);
  }

  lemma {:induction false} DistinctConcat(a: seq<string>, b: seq<string>)
    requires NoDuplicates(a) && NoDuplicates(b)
    requires forall x :: x in a ==> x !in b
    ensures NoDuplicates(a + b)
  {
    forall i, j | 0 <= i < j < |a + b|
      ensures (a + b)[i] != (a + b)[j]
    {
      if j >= |a| && i < |a| {
        assert (a + b)[i] in a && (a + b)[j] in b;
      }
    }
  }

  /** A FAQ id is `faq-` and a numeral, so different entries get different ids. */
  lemma FaqIdsDistinct(n: nat)
    ensures NoDuplicates(FaqIdList(n))
    ensures forall x :: x in FaqIdList(n) ==> |x| > 1 && x[0] == 'f'
  {
    var ids := FaqIdList(n);
    forall i, j | 0 <= i < j < n
      ensures ids[i] != ids[j]
    {
      NumberToStringInjective(i + 1, j + 1);
      assert ids[i][4..] == NumberToString(i + 1) && ids[j][4..] == NumberToString(j + 1);
    }
  }

  lemma HeadIdsDistinct()
    ensures NoDuplicates(["siteSettings"] + CabinIdList)
    ensures forall x :: x in ["siteSettings"] + CabinIdList ==> |x| > 1 && (x[0] == 's' || (x[0] == 'c' && x[1] == 'a'))
  {
  }

  lemma PolicyIdsDistinct()
    ensures NoDuplicates(PolicyIdList)
    ensures forall x :: x in PolicyIdList ==> |x| > 1 && x[0] == 'p' && x[1] == 'o'
  {
  }

  lemma PageIdsDistinct()
    ensures NoDuplicates(PageIdList)
    ensures forall x :: x in PageIdList ==> |x| > 1 && x[0] == 'p' && x[1] == 'a'
  {
  }

  /** Lists of distinct ids whose first two letters keep the lists apart have distinct ids together. */
  lemma DistinctGroups(h: seq<string>, f: seq<string>, p: seq<string>, g: seq<string>)
    requires NoDuplicates(h) && NoDuplicates(f) && NoDuplicates(p) && NoDuplicates(g)
    requires forall x :: x in h ==> |x| > 1 && (x[0] == 's' || (x[0] == 'c' && x[1] == 'a'))
    requires forall x :: x in f ==> |x| > 1 && x[0] == 'f'
    requires forall x :: x in p ==> |x| > 1 && x[0] == 'p' && x[1] == 'o'
    requires forall x :: x in g ==> |x| > 1 && x[0] == 'p' && x[1] == 'a'
    ensures NoDuplicates(h + f + p + g)
  {
    DistinctConcat(h, f);
    DistinctConcat(h + f, p);
    DistinctConcat(h + f + p, g);
  }

  /** No two seeded documents share an id, however many FAQ entries there are. */
  lemma SeedIdsDistinct(n: nat)
    ensures NoDuplicates(SeedIdList(n))
  {
    FaqIdsDistinct(n);
    HeadIdsDistinct();
    PolicyIdsDistinct();
    PageIdsDistinct();
    DistinctGroups(["siteSettings"] + CabinIdList, FaqIdList(n), PolicyIdList, PageIdList);
  }

  /** The sections of a page as the page query hands them to the renderer. */
  function Raw(sections: seq<PageSection>): (raw: seq<PageSections.Section>)
    ensures |raw| == |sections| && forall i :: 0 <= i < |sections| ==> raw[i] == PageSections.Known(sections[i])
  {
    seq(|sections|, i requires 0 <= i < |sections| => PageSections.Known(sections[i]))
  }

  /** A seeded page renders one slot: a text card with its headline, a separator when there is a headline, and its paragraphs. */
  lemma SeededPageRenders(id: string, slug: string, key: string, c: PageCopy)
    ensures
      var sections := MakePage(id, slug, key, c).page.sections.value;
      var slots := PageSections.PageSections(Some(Raw(sections)));
      && slots.Some? && |slots.value| == 1 && slots.value[0].Some?
      && var region := slots.value[0].value;
      && region == PageSections.TextRegion(key, region.heading, c.headline != "", region.body)
      && (c.headline != "" ==> region.heading == Some(c.headline))
      && region.body.Some? && Paragraphs(region.body.value) == c.paragraphs
  {
    var sections := MakePage(id, slug, key, c).page.sections.value;
    assert PageSections.Slots(Raw(sections)) == [PageSections.RenderSection(Raw(sections)[0])];
  }

  // ------------------------------------------------------------- seeding

  /**
   * The dataset: documents by id. `createOrReplace` writes a document under
   * its id, replacing whatever was there.
   */
  class Dataset {
    var documents: map<string, SeedDocument>

    constructor (documents: map<string, SeedDocument>)
      ensures this.documents == documents
    {
      this.documents := documents;
    }

    method CreateOrReplace(doc: SeedDocument)
      modifies this
      ensures documents == old(documents)[IdOf(doc) := doc]
    {
      documents := documents[IdOf(doc) := doc];
    }
  }

  /** The documents after writing `docs` in order over `m`. */
  function Upserted(m: map<string, SeedDocument>, docs: seq<SeedDocument>): (r: map<string, SeedDocument>)
    ensures m.Keys <= r.Keys
    ensures forall i :: 0 <= i < |docs| ==> IdOf(docs[i]) in r
    decreases |docs|
  {
    if docs == [] then m else Upserted(m[IdOf(docs[0]) := docs[0]], docs[1..])
  }

  /** Writing `a` then `b` is writing `a + b`. */
  lemma {:induction false} UpsertedAppend(m: map<string, SeedDocument>, a: seq<SeedDocument>, b: seq<SeedDocument>)
    ensures Upserted(m, a + b) == Upserted(Upserted(m, a), b)
    decreases |a|
  {
    if a == [] {
      assert a + b == b;
    } else {
      assert (a + b)[0] == a[0] && (a + b)[1..] == a[1..] + b;
      UpsertedAppend(m[IdOf(a[0]) := a[0]], a[1..], b);
    }
  }

  /** Afterwards the dataset holds exactly the ids it held before and the written ones. */
  lemma {:induction false} UpsertedKeys(m: map<string, SeedDocument>, docs: seq<SeedDocument>)
    ensures forall k :: k in Upserted(m, docs) <==> k in m || k in Ids(docs)
    decreases |docs|
  {
    if docs != [] {
      UpsertedKeys(m[IdOf(docs[0]) := docs[0]], docs[1..]);
    }
  }

  /** A document whose id is not written is left as it was. */
  lemma {:induction false} UpsertedUntouched(m: map<string, SeedDocument>, docs: seq<SeedDocument>, k: string)
    requires k !in Ids(docs) && k in m
    ensures k in Upserted(m, docs) && Upserted(m, docs)[k] == m[k]
    decreases |docs|
  {
    if docs != [] {
      assert Ids(docs)[0] == IdOf(docs[0]);
      UpsertedUntouched(m[IdOf(docs[0]) := docs[0]], docs[1..], k);
    }
  }

  /** What a written id ends up holding does not depend on what was there before. */
  lemma {:induction false} UpsertedOverwrites(m: map<string, SeedDocument>, m': map<string, SeedDocument>, docs: seq<SeedDocument>, k: string)
    requires k in Ids(docs)
    ensures k in Upserted(m, docs) && k in Upserted(m', docs)
    ensures Upserted(m, docs)[k] == Upserted(m', docs)[k]
    decreases |docs|
  {
    var m1, m1' := m[IdOf(docs[0]) := docs[0]], m'[IdOf(docs[0]) := docs[0]];
    if k in Ids(docs[1..]) {
      UpsertedOverwrites(m1, m1', docs[1..], k);
    } else {
      assert k == IdOf(docs[0]);
      UpsertedUntouched(m1, docs[1..], k);
      UpsertedUntouched(m1', docs[1..], k);
    }
  }

  /** With distinct ids, every document written is found under its id. */
  lemma {:induction false} UpsertedStores(m: map<string, SeedDocument>, docs: seq<SeedDocument>, i: nat)
    requires NoDuplicates(Ids(docs)) && i < |docs|
    ensures IdOf(docs[i]) in Upserted(m, docs) && Upserted(m, docs)[IdOf(docs[i])] == docs[i]
    decreases |docs|
  {
    var m1 := m[IdOf(docs[0]) := docs[0]];
    assert Ids(docs[1..]) == Ids(docs)[1..];
    if i == 0 {
      assert IdOf(docs[0]) !in Ids(docs[1..]) by {
        forall j | 0 <= j < |docs| - 1 ensures Ids(docs[1..])[j] != Ids(docs)[0] {
          assert Ids(docs[1..])[j] == Ids(docs)[j + 1];
        }
      }
      UpsertedUntouched(m1, docs[1..], IdOf(docs[0]));
    } else {
      assert docs[i] == docs[1..][i - 1];
      UpsertedStores(m1, docs[1..], i - 1);
    }
  }

  /** Seeding twice leaves the dataset as seeding once. */
  lemma UpsertedIdempotent(m: map<string, SeedDocument>, docs: seq<SeedDocument>)
    ensures Upserted(Upserted(m, docs), docs) == Upserted(m, docs)
  {
    var once := Upserted(m, docs);
    var twice := Upserted(once, docs);
    UpsertedKeys(m, docs);
    UpsertedKeys(once, docs);
    forall k | k in twice
      ensures k in once && twice[k] == once[k]
    {
      if k in Ids(docs) {
        UpsertedOverwrites(once, m, docs, k);
      } else {
        UpsertedUntouched(once, docs, k);
      }
    }
  }

  /** `createOrReplace` for each document, in order. */
  method UpsertAll(ds: Dataset, docs: seq<SeedDocument>)
    modifies ds
    ensures ds.documents == Upserted(old(ds.documents), docs)
  {
    for i := 0 to |docs|
      invariant Upserted(ds.documents, docs[i..]) == Upserted(old(ds.documents), docs)
    {
      assert docs[i..][0] == docs[i] && docs[i..][1..] == docs[i + 1..];
      ds.CreateOrReplace(docs[i]);
    }
  }

  /** `seed()` on the given prose: settings, then cabins, FAQs, policies and pages, each written in turn. */
  method SeedWith(ds: Dataset, copy: Copy, faqs: seq<FaqCopy>)
    modifies ds
    ensures ds.documents == Upserted(old(ds.documents), SeedDocuments(copy, faqs))
  {
    var settings := [SettingsDoc(copy.settings)];
    var cabins, entries, policies, pages :=
      CabinDocuments(copy), FaqDocuments(faqs), PolicyDocuments(Policies(copy)), PageDocuments(copy);
    ds.CreateOrReplace(settings[0]);
    assert ds.documents == Upserted(old(ds.documents), settings);
    UpsertAll(ds, cabins);
    UpsertedAppend(old(ds.documents), settings, cabins);
    UpsertAll(ds, entries);
    UpsertedAppend(old(ds.documents), settings + cabins, entries);
    UpsertAll(ds, policies);
    UpsertedAppend(old(ds.documents), settings + cabins + entries, policies);
    UpsertAll(ds, pages);
    UpsertedAppend(old(ds.documents), settings + cabins + entries + policies, pages);
  }

  /** `seed()` with the script's own prose and FAQ entries. */
  method Seed(ds: Dataset)
    modifies ds
    ensures ds.documents == Upserted(old(ds.documents), SeedDocuments(SeedCopy, FaqEntries))
  {
    SeedWith(ds, SeedCopy, FaqEntries);
  }

  /** Every seeded document is found under its id once the seed has run. */
  lemma SeedStoresEveryDocument(m: map<string, SeedDocument>, copy: Copy, faqs: seq<FaqCopy>)
    ensures var docs := SeedDocuments(copy, faqs);
      forall i :: 0 <= i < |docs| ==> IdOf(docs[i]) in Upserted(m, docs) && Upserted(m, docs)[IdOf(docs[i])] == docs[i]
  {
    var docs := SeedDocuments(copy, faqs);
    SeedIds(copy, faqs);
    SeedIdsDistinct(|faqs|);
    forall i | 0 <= i < |docs|
      ensures IdOf(docs[i]) in Upserted(m, docs) && Upserted(m, docs)[IdOf(docs[i])] == docs[i]
    {
      UpsertedStores(m, docs, i);
    }
  }

  /** The prose the script writes, field by field as the documents are listed. */
  const SeedCopy: Copy := Copy(
    SiteSettings(
      Some("Limestone Fields"),
      Some("A collection of cabins on Lake Limestone. Designed for rest, reflection, and the kind of clarity that comes from being still."),
      Some("hello@limestonefields.com"),
      Some("Spring 2026"),
      Some(false),
      Some(FooterCta(
        Some("Opening Spring 2026"),
        Some("Be the first to know when bookings open. Join our waitlist for early access and updates."),
        Some("Join the Waitlist")))),
    CabinCopy(
      "Standard Cabin",
      "2",
      "King bed",
      [
        "Private outdoor cedar soaking tub",
        "Workspace with natural light",
        "No televisions, just windows",
        "Access to Commons Barn"
      ],
      [
        "A clean, well-appointed space for one or two. Large windows frame the landscape. A writing desk faces the view. Everything you need, with nothing extra to manage.",
        "For meals and coffee, the Commons Barn waits\U{201A}\U{00C4}\U{00EE}stocked with locally roasted beans and a full kitchen ready for your use.",
        "Outside, your private cedar soaking tub. Fill it at dusk. Watch the stars appear.",
        "This is a cabin built for focus, for rest, for the work that matters when you finally have the space to do it."
      ],
      [
        "Parachute bed linens and towels",
        "Firewood and fire-starting kit",
        "Organic bath products",
        "Filtered water",
        "Access to Commons Barn kitchen and coffee"
      ]),
    CabinCopy(
      "Cabin Suite",
      "4-6",
      "King bed + bunk beds",
      [
        "Full kitchen with dining table",
        "Private outdoor cedar soaking tub",
        "Workspace with natural light",
        "No televisions, just windows",
        "Sleeps up to 6 guests"
      ],
      [
        "More space. Same intention.",
        "The Cabin Suite offers room for a small group or family without losing the simplicity that defines Limestone Fields. A king bed for two. Bunk beds for children or friends. A full kitchen with a dining table where you can share a meal, spread out a project, or sit with morning coffee while everyone else sleeps.",
        "Outside, the same private cedar soaking tub. The same wide sky.",
        "Whether you're here to create together, plan together, or simply be together\U{201A}\U{00C4}\U{00EE}this is a space that holds you without crowding you."
      ],
      [
        "Parachute bed linens and towels for all guests",
        "Locally roasted coffee and tea",
        "Firewood and fire-starting kit",
        "Full kitchen with cookware, dishware, and essentials",
        "Organic bath products",
        "Filtered water",
        "Dining table seating for 6"
      ]),
    PolicyCopy(
      "Pet Policy",
      [
        "Pet-friendly cabins available with advance notice. Pets must remain off furniture and be crated when unattended. $50 per pet, per stay. Select cabins remain pet-free for guests with allergies."
      ]),
    PolicyCopy(
      "Cancellation Policy",
      [
        "Full refund for cancellations made 14+ days prior to arrival",
        "50% refund for cancellations made 7-14 days prior to arrival",
        "No refund for cancellations made less than 7 days prior to arrival"
      ]),
    PolicyCopy(
      "Check-in/Check-out",
      [
        "Check-in: 4:00 PM",
        "Check-out: 11:00 AM",
        "Early check-in and late check-out may be available upon request, subject to availability."
      ]),
    PolicyCopy(
      "Accessibility",
      [
        "All cabins are single-story with step-free entry. For specific accessibility needs, please contact us directly at hello@limestonefields.com."
      ]),
    PageCopy(
      "Home",
      "Quiet ground for honest work.",
      "A collection of cabins on Lake Limestone. Designed for rest, reflection, and the kind of clarity that comes from being still.",
      "Cabins designed for presence",
      [
        "Ten cabins, two layouts, all crafted with the essentials you need and nothing extra.",
        "Natural materials, intentional details, and space to take a deeper breath.",
        "Presence over performance. Generous windows. Honest amenities. A pace set for restoration."
      ]),
    PageCopy(
      "Stay",
      "The Cabins at Limestone Fields",
      "Ten cabins. Two styles. One simple truth: everything you need, nothing you don't.",
      "Designed for presence",
      [
        "Each cabin is designed for presence. No televisions, just windows. No distractions, just the essentials done exceptionally well.",
        "Parachute linens. A private cedar soaking tub beneath the sky. The Commons Barn offers high-quality pour-over coffee and a full kitchen for your use\U{201A}\U{00C4}\U{00EE}whenever you need it, never required."
      ]),
    PageCopy(
      "Buyouts",
      "Full Property Buyouts",
      "Ten cabins, gathering spaces, and wide-open fields reserved entirely for your people.",
      "Make it yours",
      [
        "Whether you are planning an executive retreat, a creative intensive, or an intimate celebration, a full-property buyout gives you Limestone Fields entirely to yourself.",
        "Gather in the Commons Barn, let conversations linger around the fire pits, and have private cabins ready for restorative sleep when the evening winds down."
      ]),
    PageCopy(
      "Story",
      "Our Story",
      "Built by friends who believe deeply in unhurried mornings, shared meals, and a sense of place.",
      "An intentional retreat in Middle Tennessee",
      [
        "Limestone Fields began as a sketch on paper and a desire to build a place we wanted to escape to with friends and family.",
        "What followed was a commitment to honest materials, generous daylight, and the sort of small details that make you feel considered."
      ]),
    PageCopy(
      "Contact",
      "Stay in touch",
      "Have a question about Limestone Fields, partnerships, or future stays? Drop a note and we will follow up.",
      "We would love to hear from you",
      [
        "We are still building, but we are here. Join the waitlist for opening updates, or email us directly with questions about the property, partnerships, or future bookings.",
        "Lake Limestone, Texas \U{201A}\U{00C4}\U{00EE} approximately two hours from Austin, Dallas, and Houston."
      ]))

  /** The script's FAQ entries, question and answer. */
  const FaqEntries: seq<FaqCopy> := [
    FaqCopy(
      "When do bookings open?",
      "We're opening Spring 2026. Join our waitlist to be notified the moment bookings go live."),
    FaqCopy(
      "What's the minimum stay?",
      "Minimum stay requirements will be determined closer to opening and may vary by season and demand."),
    FaqCopy(
      "Is there cell service?",
      "Cell service is available but limited depending on your carrier. WiFi is provided in all cabins and the Commons Barn."),
    FaqCopy(
      "What should I bring?",
      "We provide all linens, towels, kitchenware, and basic amenities. Bring your own food and beverages (the nearest grocery store is 20 minutes away), any specific toiletries you prefer, and weather-appropriate clothing. Detailed packing suggestions will be sent upon booking."),
    FaqCopy(
      "Can I bring my dog?",
      "Yes. Pet-friendly cabins are available with advance notice. Pets must remain off furniture and be crated when unattended. $50 per pet, per stay. Select cabins remain pet-free for guests with allergies."),
    FaqCopy(
      "Are the cabins accessible?",
      "All cabins are single-story with step-free entry. For specific accessibility needs or questions, please contact us directly."),
    FaqCopy(
      "What's nearby?",
      "Not much, and that's the point. The nearest town (Groesbeck) is 15 minutes away with a small grocery store, gas station, and a few local restaurants. We're intentionally remote."),
    FaqCopy(
      "Do you host events or weddings?",
      "Yes. Full property buyouts are available for executive retreats, creative intensives, and intimate celebrations. Learn more on our Buyouts page."),
    FaqCopy(
      "What if I need to cancel?",
      "Our cancellation policy offers full refunds for cancellations made 14+ days prior to arrival, 50% refunds for 7-14 days prior, and no refunds for cancellations less than 7 days prior to arrival.")
  ]

  /** The script lists nine FAQ entries. */
  lemma FaqCount()
    ensures |FaqEntries| == 9
  {
  }
}
