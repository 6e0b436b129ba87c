/**
 * The CMS document shapes of sanity/types.ts: cabins, the six page-section
 * variants and the `PageSection` union over them, FAQs, policies, pages and
 * the site settings. Optional properties are `Option`s; numbers that the data
 * always holds as whole numbers are `int`s.
 */
module SanityTypes {
  import opened Common

  // ------------------------------------------------------- portable text

  /** A run of text inside a block. */
  datatype Span = Span(text: string)

  /** A Portable Text block: its style and its spans. */
  datatype Block = Block(style: string, children: seq<Span>)

  /** A reference to an uploaded image. */
  datatype ImageRef = ImageRef(assetRef: string)

  datatype Slug = Slug(current: string)

  // --------------------------------------------------------------- cabins

  /** `Cabin`: everything but `slug` and `order` is required. */
  datatype Cabin = Cabin(
    id: string,
    title: string,
    slug: Option<Slug>,
    squareFeet: int,
    sleeps: string,
    bedType: string,
    features: seq<string>,
    description: seq<Block>,
    included: seq<string>,
    images: seq<ImageRef>,
    order: Option<int>)

  /** The cabin fields a cabin-preview item carries. */
  datatype CabinSummary = CabinSummary(
    id: string,
    title: string,
    slug: Option<Slug>,
    squareFeet: int,
    sleeps: string,
    bedType: string)

  // -------------------------------------------------------- page sections

  datatype TextSection = TextSection(key: string, headline: Option<string>, body: Option<seq<Block>>)

  datatype ImageSection = ImageSection(key: string, image: Option<ImageRef>, caption: Option<string>, alt: Option<string>)

  datatype ValuePropCard = ValuePropCard(headline: Option<string>, body: Option<string>)

  datatype ValuePropSection = ValuePropSection(
    key: string, headline: Option<string>, introText: Option<string>, cards: Option<seq<ValuePropCard>>)

  datatype CtaVariant = Primary | Secondary | Muted

  datatype CtaSection = CtaSection(
    key: string, headline: Option<string>, body: Option<string>,
    buttonText: Option<string>, buttonHref: Option<string>, variant: Option<CtaVariant>)

  datatype CabinPreviewItem = CabinPreviewItem(
    cabin: Option<CabinSummary>, image: Option<ImageRef>, description: Option<string>)

  datatype CabinPreviewSection = CabinPreviewSection(
    key: string, headline: Option<string>, subhead: Option<string>, cabins: Option<seq<CabinPreviewItem>>)

  datatype TwoColumnSection = TwoColumnSection(
    key: string,
    leftHeadline: Option<string>, leftBody: Option<seq<Block>>,
    rightHeadline: Option<string>, rightBody: Option<seq<Block>>,
    leftImage: Option<ImageRef>, rightImage: Option<ImageRef>)

  /** `PageSection`: the closed union of the six variants. */
  datatype PageSection =
    | Text(text: TextSection)
    | Image(image: ImageSection)
    | ValueProp(valueProp: ValuePropSection)
    | Cta(cta: CtaSection)
    | CabinPreview(cabinPreview: CabinPreviewSection)
    | TwoColumn(twoColumn: TwoColumnSection)

  /** The literal `_type` of each variant. */
  function Tag(s: PageSection): string {
    match s
    case Text(_) => "textSection"
    case Image(_) => "imageSection"
    case ValueProp(_) => "valuePropSection"
    case Cta(_) => "ctaSection"
    case CabinPreview(_) => "cabinPreviewSection"
    case TwoColumn(_) => "twoColumnSection"
  }

  /** Every variant's `_key`. */
  function Key(s: PageSection): string {
    match s
    case Text(t) => t.key
    case Image(t) => t.key
    case ValueProp(t) => t.key
    case Cta(t) => t.key
    case CabinPreview(t) => t.key
    case TwoColumn(t) => t.key
  }

  const SectionTags: seq<string> :=
    ["textSection", "imageSection", "valuePropSection", "ctaSection", "cabinPreviewSection", "twoColumnSection"]

  /** The object types the page document's `sections` array admits, as the Studio schema declares them. */
  const PageSchemaSectionNames: seq<string> :=
    ["textSection", "imageSection", "valuePropSection", "ctaSection", "cabinPreviewSection", "twoColumnSection"]

  /** The tags are six distinct strings, and the tag tells the variant. */
  lemma TagsIdentifyVariants(s: PageSection, t: PageSection)
    ensures Tag(s) in SectionTags && |SectionTags| == 6 && NoDuplicates(SectionTags)
    ensures Tag(s) == Tag(t) <==>
      && s.Text? == t.Text? && s.Image? == t.Image? && s.ValueProp? == t.ValueProp?
      && s.Cta? == t.Cta? && s.CabinPreview? == t.CabinPreview? && s.TwoColumn? == t.TwoColumn?
  {
  }

  /**
   * The tags of the types coincide, in order, with the section object names
   * of the page schema (sanity/schemas/page.ts). Both lists are transcribed
   * from the source, so this checks the transcription, not the source.
   */
  lemma TagsMatchPageSchema()
    ensures SectionTags == PageSchemaSectionNames
  {
  }

  /** The names the Studio offers for a call-to-action's `variant`. */
  function VariantName(v: CtaVariant): string {
    match v
    case Primary => "primary"
    case Secondary => "secondary"
    case Muted => "muted"
  }

  /** Reading a stored `variant` string: anything outside the list is no variant. */
  function ParseVariant(s: string): (v: Option<CtaVariant>)
    ensures v.Some? ==> VariantName(v.value) == s
  {
    if s == "primary" then Some(Primary)
    else if s == "secondary" then Some(Secondary)
    else if s == "muted" then Some(Muted)
    else None
  }

  /** The variant names round-trip, so the list is exactly the three values. */
  lemma VariantRoundTrip(v: CtaVariant)
    ensures ParseVariant(VariantName(v)) == Some(v)
  {
  }

  // -------------------------------------------------------- other documents

  datatype PageSeo = PageSeo(metaTitle: Option<string>, metaDescription: Option<string>, ogImage: Option<ImageRef>)

  datatype PageDocument = PageDocument(
    title: Option<string>,
    heroHeadline: Option<string>,
    heroSubhead: Option<string>,
    heroImage: Option<ImageRef>,
    heroCtaText: Option<string>,
    heroCtaHref: Option<string>,
    sections: Option<seq<PageSection>>,
    seo: Option<PageSeo>)

  datatype FooterCta = FooterCta(headline: Option<string>, body: Option<string>, buttonText: Option<string>)

  datatype SiteSettings = SiteSettings(
    title: Option<string>,
    description: Option<string>,
    email: Option<string>,
    openingDate: Option<string>,
    bookingsOpen: Option<bool>,
    footerCta: Option<FooterCta>)

  datatype Faq = Faq(id: string, question: string, answer: seq<Block>, order: Option<int>)

  datatype Policy = Policy(id: string, title: string, slug: Option<Slug>, content: seq<Block>, order: Option<int>)
}
