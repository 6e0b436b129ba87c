/**
 * components/sections/PageSections.tsx: the page body rendered from a page's
 * section list. Each section becomes one slot of the output, in order: the
 * region its variant renders, or nothing (`null`) when its `_type` is none of
 * the six. A region lists which elements appear and what they show; styling
 * is not modelled, and images are the asset requested at a fixed size.
 */
module PageSections {
  import opened Common
  import opened SanityTypes

  /** A section object as the CMS could hold it: one of the six variants, or an object tagged `tag`. */
  datatype RawSection = Known(section: PageSection) | Unrecognised(tag: string, key: string)

  /** The `_type` the `switch` looks at. */
  function TagOf(s: RawSection): string {
    match s
    case Known(section) => Tag(section)
    case Unrecognised(tag, _) => tag
  }

  /** A section as it arrives: an object tagged with one of the six `_type`s is that variant, so `Unrecognised` carries some other tag. */
  type Section = s: RawSection | s.Unrecognised? ==> s.tag !in SectionTags
    witness Unrecognised("", "")

  /** An image requested at a fixed width and height, with its alt text. */
  datatype Picture = Picture(image: ImageRef, width: nat, height: nat, alt: string)

  datatype CardRegion = CardRegion(heading: Option<string>, body: Option<string>)

  datatype Link = Link(text: string, href: string)

  datatype Background = Plain | MutedBackground | SecondaryBackground

  datatype Heading = Heading(text: string, subhead: Option<string>)

  /** A cabin card's media: the preview image, or the placeholder text. */
  datatype Media = Photo(picture: Picture) | Placeholder(text: string)

  datatype CabinDetails = CabinDetails(title: string, squareFeet: int, sleeps: string, bedType: string)

  datatype CabinCard = CabinCard(media: Media, details: Option<CabinDetails>, description: Option<string>, learnMore: Link)

  datatype Column = Column(picture: Option<Picture>, heading: Option<string>, body: Option<seq<Block>>)

  /** What one section renders, keyed by its `_key`. */
  datatype Region =
    | TextRegion(key: string, heading: Option<string>, separator: bool, body: Option<seq<Block>>)
    | ImageRegion(key: string, picture: Option<Picture>, caption: Option<string>)
    | ValuePropRegion(key: string, heading: Option<string>, intro: Option<string>, cards: Option<seq<CardRegion>>)
    | CtaRegion(key: string, background: Background, heading: Option<string>, bodyText: Option<string>, button: Option<Link>)
    | CabinPreviewRegion(key: string, header: Option<Heading>, grid: Option<seq<CabinCard>>)
    | TwoColumnRegion(key: string, left: Column, right: Column)

  /** `{s && <element>{s}</element>}`: the element appears, showing `s`, exactly when `s` is truthy. */
  function Shown(s: Option<string>): (r: Option<string>)
    ensures r.Some? <==> Truthy(s)
    ensures r.Some? ==> r == s
  {
    if Truthy(s) then s else None
  }

  function RenderText(s: TextSection): (r: Region)
    ensures r.TextRegion? && r.key == s.key
    ensures r.heading == Shown(s.headline) && (r.separator <==> Truthy(s.headline))
    ensures r.body == s.body
  {
    TextRegion(s.key, Shown(s.headline), Truthy(s.headline), s.body)
  }

  function RenderImage(s: ImageSection): (r: Region)
    ensures r.ImageRegion? && r.key == s.key
    ensures r.picture.Some? <==> s.image.Some?
    ensures r.picture.Some? ==> r.picture.value.image == s.image.value
    ensures r.picture.Some? ==> r.picture.value.width == 1600 && r.picture.value.height == 900
    ensures r.picture.Some? ==> r.picture.value.alt != ""
    ensures r.caption == Shown(s.caption)
  {
    var alt := if Truthy(s.alt) then s.alt.value else OrElse(s.caption, "Section image");
    ImageRegion(s.key,
                if s.image.Some? then Some(Picture(s.image.value, 1600, 900, alt)) else None,
                Shown(s.caption))
  }

  function RenderCard(c: ValuePropCard): (r: CardRegion)
    ensures r.heading == Shown(c.headline) && r.body == Shown(c.body)
  {
    CardRegion(Shown(c.headline), Shown(c.body))
  }

  /** `cards.map(...)`: one card per entry, in order. */
  function RenderCards(cards: seq<ValuePropCard>): (r: seq<CardRegion>)
    ensures |r| == |cards| && forall i :: 0 <= i < |cards| ==> r[i] == RenderCard(cards[i])
  {
    if cards == [] then [] else [RenderCard(cards[0])] + RenderCards(cards[1..])
  }

  function RenderValueProp(s: ValuePropSection): (r: Region)
    ensures r.ValuePropRegion? && r.key == s.key
    ensures r.heading == Shown(s.headline) && r.intro == Shown(s.introText)
    ensures r.cards.Some? <==> s.cards.Some? && |s.cards.value| > 0
    ensures r.cards.Some? ==> r.cards.value == RenderCards(s.cards.value)
  {
    ValuePropRegion(s.key, Shown(s.headline), Shown(s.introText),
                    if s.cards.Some? && |s.cards.value| > 0 then Some(RenderCards(s.cards.value)) else None)
  }

  function BackgroundOf(v: Option<CtaVariant>): Background {
    match v
    case Some(Muted) => MutedBackground
    case Some(Secondary) => SecondaryBackground
    case _ => Plain
  }

  function RenderCta(s: CtaSection): (r: Region)
    ensures r.CtaRegion? && r.key == s.key
    ensures r.heading == Shown(s.headline) && r.bodyText == Shown(s.body)
    ensures r.button.Some? <==> Truthy(s.buttonText) && Truthy(s.buttonHref)
    ensures r.button.Some? ==> r.button.value == Link(s.buttonText.value, s.buttonHref.value)
    ensures r.background == MutedBackground <==> s.variant == Some(Muted)
    ensures r.background == SecondaryBackground <==> s.variant == Some(Secondary)
  {
    CtaRegion(s.key, BackgroundOf(s.variant), Shown(s.headline), Shown(s.body),
              if Truthy(s.buttonText) && Truthy(s.buttonHref) then Some(Link(s.buttonText.value, s.buttonHref.value)) else None)
  }

  function RenderCabinCard(item: CabinPreviewItem): (r: CabinCard)
    ensures r.media.Photo? <==> item.image.Some?
    ensures r.media.Photo? ==> r.media.picture == Picture(item.image.value, 1200, 900,
                                 if item.cabin.Some? then Or(item.cabin.value.title, "Cabin image") else "Cabin image")
    ensures r.media.Placeholder? ==> r.media.text == "Image coming soon"
    ensures r.details.Some? <==> item.cabin.Some?
    ensures r.description == Shown(item.description)
    ensures r.learnMore.href == "/stay"
  {
    var alt := if item.cabin.Some? then Or(item.cabin.value.title, "Cabin image") else "Cabin image";
    CabinCard(
      if item.image.Some? then Photo(Picture(item.image.value, 1200, 900, alt)) else Placeholder("Image coming soon"),
      if item.cabin.Some?
        then Some(CabinDetails(item.cabin.value.title, item.cabin.value.squareFeet, item.cabin.value.sleeps, item.cabin.value.bedType))
        else None,
      Shown(item.description),
      Link("Learn More \U{2192}", "/stay"))
  }

  function RenderCabinCards(items: seq<CabinPreviewItem>): (r: seq<CabinCard>)
    ensures |r| == |items| && forall i :: 0 <= i < |items| ==> r[i] == RenderCabinCard(items[i])
  {
    if items == [] then [] else [RenderCabinCard(items[0])] + RenderCabinCards(items[1..])
  }

  function RenderCabinPreview(s: CabinPreviewSection): (r: Region)
    ensures r.CabinPreviewRegion? && r.key == s.key
    ensures r.header.Some? <==> Truthy(s.headline)
    ensures r.header.Some? ==> r.header.value == Heading(s.headline.value, Shown(s.subhead))
    ensures r.grid.Some? <==> s.cabins.Some? && |s.cabins.value| > 0
    ensures r.grid.Some? ==> r.grid.value == RenderCabinCards(s.cabins.value)
  {
    CabinPreviewRegion(s.key,
      if Truthy(s.headline) then Some(Heading(s.headline.value, Shown(s.subhead))) else None,
      if s.cabins.Some? && |s.cabins.value| > 0 then Some(RenderCabinCards(s.cabins.value)) else None)
  }

  function RenderColumn(image: Option<ImageRef>, headline: Option<string>, body: Option<seq<Block>>): (c: Column)
    ensures c.picture.Some? <==> image.Some?
    ensures c.picture.Some? ==> c.picture.value == Picture(image.value, 800, 600, "")
    ensures c.heading == Shown(headline) && c.body == body
  {
    Column(if image.Some? then Some(Picture(image.value, 800, 600, "")) else None, Shown(headline), body)
  }

  function RenderTwoColumn(s: TwoColumnSection): (r: Region)
    ensures r.TwoColumnRegion? && r.key == s.key
    ensures r.left == RenderColumn(s.leftImage, s.leftHeadline, s.leftBody)
    ensures r.right == RenderColumn(s.rightImage, s.rightHeadline, s.rightBody)
  {
    TwoColumnRegion(s.key, RenderColumn(s.leftImage, s.leftHeadline, s.leftBody),
                    RenderColumn(s.rightImage, s.rightHeadline, s.rightBody))
  }

  /** The `switch` on `_type`. */
  function RenderSection(s: Section): (r: Option<Region>)
    ensures r.None? <==> s.Unrecognised?
    ensures r.None? <==> TagOf(s) !in SectionTags
    ensures r.Some? ==> r.value.key == Key(s.section)
  {
    match s
    case Unrecognised(_, _) => None
    case Known(Text(t)) => Some(RenderText(t))
    case Known(Image(t)) => Some(RenderImage(t))
    case Known(ValueProp(t)) => Some(RenderValueProp(t))
    case Known(Cta(t)) => Some(RenderCta(t))
    case Known(CabinPreview(t)) => Some(RenderCabinPreview(t))
    case Known(TwoColumn(t)) => Some(RenderTwoColumn(t))
  }

  /** `sections.map(...)`: one slot per section, in order. */
  function Slots(sections: seq<Section>): (r: seq<Option<Region>>)
    ensures |r| == |sections|
    ensures forall i :: 0 <= i < |sections| ==> r[i] == RenderSection(sections[i])
  {
    if sections == [] then [] else [RenderSection(sections[0])] + Slots(sections[1..])
  }

  /** The component: nothing at all for an absent or empty list, otherwise the slots. */
  function PageSections(sections: Option<seq<Section>>): (r: Option<seq<Option<Region>>>)
    ensures r.None? <==> sections.None? || sections.value == []
    ensures r.Some? ==> r.value == Slots(sections.value)
  {
    if sections.None? || |sections.value| == 0 then None else Some(Slots(sections.value))
  }

  // ------------------------------------------------------------- properties

  /** Rendering distributes over concatenation: each section is rendered on its own. */
  lemma {:induction false} SlotsAppend(a: seq<Section>, b: seq<Section>)
    ensures Slots(a + b) == Slots(a) + Slots(b)
  {
    if a == [] {
      assert a + b == b;
    } else {
      assert (a + b)[0] == a[0] && (a + b)[1..] == a[1..] + b;
      SlotsAppend(a[1..], b);
    }
  }

  function CountRecognised(sections: seq<Section>): nat {
    if sections == [] then 0 else (if sections[0].Known? then 1 else 0) + CountRecognised(sections[1..])
  }

  function CountShown(slots: seq<Option<Region>>): nat {
    if slots == [] then 0 else (if slots[0].Some? then 1 else 0) + CountShown(slots[1..])
  }

  /** As many regions appear as there are recognised sections. */
  lemma {:induction false} ShownMatchesRecognised(sections: seq<Section>)
    ensures CountShown(Slots(sections)) == CountRecognised(sections)
  {
    if sections != [] {
      ShownMatchesRecognised(sections[1..]);
      assert Slots(sections)[1..] == Slots(sections[1..]);
    }
  }

  /** Giving one recognised section an unknown tag leaves one recognised section fewer. */
  lemma {:induction false} CountRecognisedBlanked(sections: seq<Section>, i: nat, blank: Section)
    requires i < |sections| && sections[i].Known? && blank.Unrecognised?
    ensures CountRecognised(sections[i := blank]) + 1 == CountRecognised(sections)
    decreases i
  {
    if i == 0 {
      assert sections[i := blank][1..] == sections[1..];
    } else {
      assert sections[i := blank][1..] == sections[1..][i - 1 := blank];
      CountRecognisedBlanked(sections[1..], i - 1, blank);
    }
  }

  /**
   * Replacing a recognised section by one with an unknown tag blanks exactly
   * that slot: one region fewer, every other slot unchanged.
   */
  lemma UnknownTagBlanksOneSlot(sections: seq<Section>, i: nat, tag: string)
    requires i < |sections| && sections[i].Known? && tag !in SectionTags
    ensures
      var changed := sections[i := Unrecognised(tag, Key(sections[i].section))];
      && Slots(changed)[i].None?
      && (forall j :: 0 <= j < |sections| && j != i ==> Slots(changed)[j] == Slots(sections)[j])
      && CountShown(Slots(changed)) + 1 == CountShown(Slots(sections))
  {
    var changed := sections[i := Unrecognised(tag, Key(sections[i].section))];
    ShownMatchesRecognised(sections);
    ShownMatchesRecognised(changed);
    CountRecognisedBlanked(sections, i, changed[i]);
  }

  /** The call-to-action background follows the stored `variant` string: `'muted'`, `'secondary'`, or neither. */
  lemma StoredVariantBackground(variant: string)
    ensures BackgroundOf(ParseVariant(variant)) == MutedBackground <==> variant == "muted"
    ensures BackgroundOf(ParseVariant(variant)) == SecondaryBackground <==> variant == "secondary"
    ensures BackgroundOf(ParseVariant(variant)) == Plain <==> variant != "muted" && variant != "secondary"
  {
  }

  /** A text section always renders its card, even with no headline and no body. */
  lemma EmptyTextSectionRendersCard(key: string)
    ensures RenderSection(Known(Text(TextSection(key, None, None)))) == Some(TextRegion(key, None, false, None))
  {
  }

  /** The alt text of a section image falls back from `alt` to `caption` to "Section image". */
  lemma ImageAltFallback(s: ImageSection)
    requires s.image.Some?
    ensures Truthy(s.alt) ==> RenderImage(s).picture.value.alt == s.alt.value
    ensures !Truthy(s.alt) && Truthy(s.caption) ==> RenderImage(s).picture.value.alt == s.caption.value
    ensures !Truthy(s.alt) && !Truthy(s.caption) ==> RenderImage(s).picture.value.alt == "Section image"
  {
  }

  /** A subhead without a headline is dropped: it only renders inside the headline block. */
  lemma SubheadNeedsHeadline(s: CabinPreviewSection)
    requires !Truthy(s.headline)
    ensures RenderCabinPreview(s).header.None?
  {
  }
}
