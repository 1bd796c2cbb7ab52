/**
 * The page-description document (types.ts): the thirteen block variants, their
 * sub-item records and the document wrapper `ProductPlan`.
 *
 * `Block` is one tagged datatype. Every alternative carries `block_id`; the `type`
 * discriminant of the JSON form is `Type()`. Two further alternatives stand for what a
 * parsed JSON document may hold besides well-shaped blocks: a block whose `type` is none
 * of the thirteen (`Unrecognised`), and a block whose `type` is known but whose required
 * list or record field is missing, so that rendering it throws (`Malformed`).
 * Field names follow types.ts; where two variants use one name with different types the
 * field carries the variant's name as a prefix (`detailItems`, `usageItems`,
 * `noticeItems`, `recommendBadge`), and `label`, a Dafny keyword, is spelt `labelText`.
 */
module Blocks {
  import opened Results

  /** `sticker.position` admits exactly one value, 'top-right'. */
  datatype StickerPosition = TopRight {
    function Name(): string {
      "top-right"
    }
  }

  datatype Sticker = Sticker(text: string, position: StickerPosition)

  datatype StoryBadge = StoryBadge(icon: string, text: string)

  datatype Choice = Choice(labelText: string, imgSrc: string, imgAlt: string, name: string)

  datatype Point = Point(icon: string, title: string, description: string)

  datatype DetailItem = DetailItem(labelText: string, title: string, text: string, imgSrc: string, imgAlt: string)

  datatype MainImage = MainImage(src: string, alt: string)

  datatype UsageItem = UsageItem(emoji: string, title: string, description: string)

  datatype InfoRow = InfoRow(key: string, value: string)

  /** The thirteen `type` discriminants of the `Block` union. */
  datatype BlockTag =
    | HeroSectionTag | FullImageTag | CatchPhraseTag | StoryCardTag | ChoiceSectionTag
    | PointsSectionTag | DetailSectionTag | UsageSectionTag | RecommendSectionTag
    | InfoSectionTag | NoticeSectionTag | FooterSectionTag | VideoTestimonialTag
  {
    /** The discriminant's JSON spelling. */
    function Name(): string {
      match this
      case HeroSectionTag => "hero_section"
      case FullImageTag => "full_image"
      case CatchPhraseTag => "catch_phrase"
      case StoryCardTag => "story_card"
      case ChoiceSectionTag => "choice_section"
      case PointsSectionTag => "points_section"
      case DetailSectionTag => "detail_section"
      case UsageSectionTag => "usage_section"
      case RecommendSectionTag => "recommend_section"
      case InfoSectionTag => "info_section"
      case NoticeSectionTag => "notice_section"
      case FooterSectionTag => "footer_section"
      case VideoTestimonialTag => "video_testimonial"
    }

    /**
     * The variants whose renderer dereferences a nested list or record (`lines.join`,
     * `badge.icon`, `choices.map`, ...), so that a block lacking it throws. The other
     * variants only interpolate top-level fields, which never throws.
     */
    predicate CanThrow() {
      || CatchPhraseTag? || StoryCardTag? || ChoiceSectionTag? || PointsSectionTag?
      || DetailSectionTag? || UsageSectionTag? || InfoSectionTag? || NoticeSectionTag?
    }
  }


  /** A `type` string outside the union, which the renderer meets only in external input. */
  type UnknownType = t: string | t !in TypeNames witness ""

  /** A known tag whose renderer can throw on a block missing its nested field. */
  type FragileTag = t: BlockTag | t.CanThrow() witness CatchPhraseTag

  datatype Block =
    | HeroSection(block_id: string, brandTag: string, mainTitle: string, subTitle: string, emojiDeco: string)
    | FullImage(block_id: string, src: string, alt: string, sticker: Option<Sticker>)
    | CatchPhrase(block_id: string, lines: seq<string>)
    | StoryCard(block_id: string, badge: StoryBadge, mainText: string, pointText: string)
    | ChoiceSection(block_id: string, title: string, subtitle: string, choices: seq<Choice>)
    | PointsSection(block_id: string, title: string, subtitle: string, points: seq<Point>)
    | DetailSection(block_id: string, title: string, detailItems: seq<DetailItem>)
    | UsageSection(block_id: string, title: string, subtitle: string, mainImage: Option<MainImage>, usageItems: seq<UsageItem>)
    | RecommendSection(block_id: string, recommendBadge: string, text: string)
    | InfoSection(block_id: string, title: string, rows: seq<InfoRow>)
    | NoticeSection(block_id: string, title: string, noticeItems: seq<string>)
    | FooterSection(block_id: string, logo: string, text: string, emoji: string)
    | VideoTestimonial(block_id: string, title: string, videoUrl: string, quote: string, author: string)
    | Malformed(block_id: string, tag: FragileTag)
    | Unrecognised(block_id: string, typeName: UnknownType)
  {
    /** The tag of a block of one of the thirteen variants. */
    function Tag(): BlockTag
      requires !Unrecognised?
    {
      match this
      case HeroSection(_, _, _, _, _) => HeroSectionTag
      case FullImage(_, _, _, _) => FullImageTag
      case CatchPhrase(_, _) => CatchPhraseTag
      case StoryCard(_, _, _, _) => StoryCardTag
      case ChoiceSection(_, _, _, _) => ChoiceSectionTag
      case PointsSection(_, _, _, _) => PointsSectionTag
      case DetailSection(_, _, _) => DetailSectionTag
      case UsageSection(_, _, _, _, _) => UsageSectionTag
      case RecommendSection(_, _, _) => RecommendSectionTag
      case InfoSection(_, _, _) => InfoSectionTag
      case NoticeSection(_, _, _) => NoticeSectionTag
      case FooterSection(_, _, _, _) => FooterSectionTag
      case VideoTestimonial(_, _, _, _, _) => VideoTestimonialTag
      case Malformed(_, t) => t
    }

    /** The `type` discriminant as it appears in the JSON document. */
    function Type(): string {
      if Unrecognised? then typeName else Tag().Name()
    }
  }

  /** A block the grouping scan treats as an image: a well-shaped `full_image`. */
  type ImageBlock = b: Block | b.FullImage? witness FullImage("", "", "", None)

  /** `ProductPlan`: the document; `blocks` is in rendering order. */
  datatype ProductPlan = ProductPlan(project: string, description: string, blocks: seq<Block>)

  /** The thirteen variants in the order of the `Block` union. */
  const AllTags: seq<BlockTag> := [
    HeroSectionTag, FullImageTag, CatchPhraseTag, StoryCardTag, ChoiceSectionTag,
    PointsSectionTag, DetailSectionTag, UsageSectionTag, RecommendSectionTag,
    InfoSectionTag, NoticeSectionTag, FooterSectionTag, VideoTestimonialTag
  ]

  /** The `type` strings of AllTags, position by position. */
  const TypeNames: seq<string> := [
    "hero_section", "full_image", "catch_phrase", "story_card", "choice_section",
    "points_section", "detail_section", "usage_section", "recommend_section",
    "info_section", "notice_section", "footer_section", "video_testimonial"
  ]

  /** The position of a tag in AllTags. */
  function TagIndex(t: BlockTag): (i: nat)
    ensures i < |AllTags| && AllTags[i] == t && TypeNames[i] == t.Name()
  {
    match t
    case HeroSectionTag => 0
    case FullImageTag => 1
    case CatchPhraseTag => 2
    case StoryCardTag => 3
    case ChoiceSectionTag => 4
    case PointsSectionTag => 5
    case DetailSectionTag => 6
    case UsageSectionTag => 7
    case RecommendSectionTag => 8
    case InfoSectionTag => 9
    case NoticeSectionTag => 10
    case FooterSectionTag => 11
    case VideoTestimonialTag => 12
  }

  /** No two variants share a `type` string. */
  lemma TypeNamesDistinct()
    ensures forall i, j | 0 <= i < j < |TypeNames| :: TypeNames[i] != TypeNames[j]
  {
  }

  /** The union has exactly thirteen variants, each with its own `type` string. */
  lemma KnownTypesExact()
    ensures |AllTags| == |TypeNames| == 13
    ensures forall i, j | 0 <= i < j < |TypeNames| :: TypeNames[i] != TypeNames[j]
    ensures forall t: BlockTag :: t.Name() in TypeNames
  {
    TypeNamesDistinct();
    forall t: BlockTag ensures t.Name() in TypeNames {
      assert TypeNames[TagIndex(t)] == t.Name();
    }
  }

  /** Two tags with the same `type` string are the same tag. */
  lemma TagNamesDistinct(s: BlockTag, t: BlockTag)
    ensures s.Name() == t.Name() ==> s == t
    ensures s.Name() in TypeNames
  {
    KnownTypesExact();
    TypeNamesDistinct();
    var i, j := TagIndex(s), TagIndex(t);
    if i < j {
      assert TypeNames[i] != TypeNames[j];
    } else if j < i {
      assert TypeNames[j] != TypeNames[i];
    }
  }

  /** The scan's test `block.type === 'full_image'` holds exactly of the well-shaped image blocks. */
  lemma FullImageTypeIff(b: Block)
    ensures b.Type() == "full_image" <==> b.FullImage?
  {
    if !b.Unrecognised? {
      TagNamesDistinct(b.Tag(), FullImageTag);
    }
  }
}
