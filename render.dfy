/**
 * The per-variant renderer (renderBlock), the carousel renderer (renderCarouselBlock)
 * and the red error box that replaces a block whose rendering threw.
 *
 * Every field is spliced into the markup verbatim: nothing is escaped. Every sub-list
 * is rendered element by element and joined with '' in its given order.
 */
module Render {
  import opened Results
  import opened Strings
  import opened Blocks

  /** The exception a renderer throws on a block missing a nested field (a TypeError in the source). */
  datatype RenderFailure = MissingNestedField(tag: BlockTag)

  /** `<div class="sticker top-right">text</div>` when a sticker is present, '' otherwise. */
  function StickerMarkup(sticker: Option<Sticker>): string {
    match sticker
    case Some(s) => "<div class=\"sticker " + s.position.Name() + "\">" + s.text + "</div>"
    case None => ""
  }

  /** The extra container class of an image that carries a sticker. */
  function ImageContainerClass(sticker: Option<Sticker>): string {
    if sticker.Some? then "image-with-sticker" else ""
  }

  // The fixed texts of the carousel slide template, in order.
  const SlideText0: string :=
    "\n" +
    ("            <div " + "class=\"carousel-slide ")

  const SlideText1: string :=
    "\">\n" +
    "                "

  const SlideText2: string :=
    "\n" +
    ("                <img " + "src=\"")

  const SlideText3: string :=
    "\" alt=\""

  const SlideText4: string :=
    ("\" " + "crossorigin=\"anonymous\">" + "\n") +
    "            </div>\n" +
    "        "

  /** The carousel slide template, given its container class and its sticker markup. */
  function SlideMarkup(containerClass: string, stickerHtml: string, src: string, alt: string): string {
    Join([SlideText0, containerClass, SlideText1, stickerHtml, SlideText2, src, SlideText3, alt, SlideText4], "")
  }

  /** One carousel slide, showing its image's address and text verbatim. */
  function RenderSlide(img: ImageBlock): (r: string)
    ensures Contains(r, img.src) && Contains(r, img.alt)
  {
    var parts := [SlideText0, ImageContainerClass(img.sticker), SlideText1, StickerMarkup(img.sticker),
                  SlideText2, img.src, SlideText3, img.alt, SlideText4];
    JoinHasPart(parts, "", 5);
    JoinHasPart(parts, "", 7);
    SlideMarkup(ImageContainerClass(img.sticker), StickerMarkup(img.sticker), img.src, img.alt)
  }

  /** Whether dot `index` is initially marked active. */
  function DotActive(index: nat): bool {
    index == 0
  }

  /** The dot's `data-index` attribute, which the click handler reads back as the slide to show. */
  function DataIndexAttribute(index: nat): string {
    "data-index=\"" + NatToString(index) + "\""
  }

  /** The dot's accessible name, numbering the slides from 1. */
  function DotLabel(index: nat): string {
    "aria-label=\"Go to slide " + NatToString(index + 1) + "\""
  }

  /** The indicator dot for slide `index`: it carries its index attribute and its label. */
  function RenderDot(index: nat): (r: string)
    ensures Contains(r, DataIndexAttribute(index))
    ensures Contains(r, "aria-label=\"Go to slide " + NatToString(index + 1) + "\"")
  {
    var parts := [DotOpen, if DotActive(index) then "active" else "", "\" ", DataIndexAttribute(index), " ", DotLabel(index), "></button>"];
    JoinHasPart(parts, "", 3);
    JoinHasPart(parts, "", 5);
    Join(parts, "")
  }

  const DotOpen: string :=
    "<button " + "class=\"carousel-dot "

  /** The indices 0 .. n-1, in order (the second argument of `blocks.map((_, index) => ...)`). */
  function Indices(n: nat): (r: seq<nat>)
    ensures |r| == n && forall k :: 0 <= k < n ==> r[k] == k
  {
    seq(n, k requires 0 <= k < n => k)
  }

  function SlidesMarkup(images: seq<ImageBlock>): string {
    Join(Map(images, RenderSlide), "")
  }

  function DotsMarkup(n: nat): string {
    Join(Map(Indices(n), RenderDot), "")
  }

  /** The carousel template's fixed texts around the id, the slide run and the dot run. */
  const CarouselOpen: string :=
    "\n" +
    "        <div id=\""

  const CarouselTrackOpen: string :=
    ("\" " + "class=\"carousel-container\" " + "role=\"region\" " + "aria-label=\"Image " + "Carousel\">\n") +
    ("            <div " + "class=\"carousel-track-container\">" + "\n") +
    ("                <div " + "class=\"carousel-track\">")

  const CarouselControls: string :=
    "</div>\n" +
    "            </div>\n" +
    ("            <button " + "class=\"carousel-button " + "prev\" " + "aria-label=\"Previous " + "Slide\">‹</button>\n") +
    ("            <button " + "class=\"carousel-button " + "next\" aria-label=\"Next " + "Slide\">›</button>\n") +
    ("            <div " + "class=\"carousel-nav\">")

  const CarouselClose: string :=
    "</div>\n" +
    "        </div>\n" +
    "    "

  /**
   * renderCarouselBlock: one slide per image and one dot per image, in run order. The
   * carousel names its id, and shows its slide run and then its dot run.
   */
  function RenderCarousel(images: seq<ImageBlock>, carouselId: string): (r: string)
    ensures Contains(r, carouselId)
    ensures Precedes(r, SlidesMarkup(images), DotsMarkup(|images|))
  {
    var slidesHtml := SlidesMarkup(images);
    var dotsHtml := DotsMarkup(|images|);
    var pre := CarouselOpen + carouselId + CarouselTrackOpen;
    ContainsMiddle(CarouselOpen, carouselId, CarouselTrackOpen);
    ContainsLeft(pre, slidesHtml, carouselId);
    ContainsLeft(pre + slidesHtml, CarouselControls, carouselId);
    ContainsLeft(pre + slidesHtml + CarouselControls, dotsHtml, carouselId);
    ContainsLeft(pre + slidesHtml + CarouselControls + dotsHtml, CarouselClose, carouselId);
    PrecedesSpliced(pre, slidesHtml, CarouselControls, dotsHtml);
    PrecedesLeft(pre + slidesHtml + CarouselControls + dotsHtml, CarouselClose, slidesHtml, dotsHtml);
    CarouselOpen + carouselId + CarouselTrackOpen + slidesHtml + CarouselControls + dotsHtml + CarouselClose
  }

  /** One choice card; its label, image address, image text and name are spliced in verbatim. */
  function RenderChoice(c: Choice): (r: string)
    ensures Contains(r, c.labelText) && Contains(r, c.imgSrc) && Contains(r, c.imgAlt) && Contains(r, c.name)
  {
    var parts := [
      "\n" +
      ("                        " + "<div " + "class=\"choice-card\">\n") +
      ("                        " + "  <div " + "class=\"choice-label\">"),
      c.labelText,
      "</div>\n" +
      ("                        " + "  <img src=\""),
      c.imgSrc,
      "\" alt=\"",
      c.imgAlt,
      ("\" " + "crossorigin=\"anonymous\">" + "\n") +
      ("                        " + "  <div " + "class=\"choice-name\">"),
      c.name,
      "</div>\n" +
      ("                        " + "</div>\n") +
      "                    "];
    JoinHasPart(parts, "", 1);
    JoinHasPart(parts, "", 3);
    JoinHasPart(parts, "", 5);
    JoinHasPart(parts, "", 7);
    Join(parts, "")
  }

  /** One selling point; its icon, title and description are spliced in verbatim. */
  function RenderPoint(p: Point): (r: string)
    ensures Contains(r, p.icon) && Contains(r, p.title) && Contains(r, p.description)
  {
    var parts := [
      "\n" +
      ("                        " + "<div class=\"point-item\">" + "\n") +
      ("                        " + "  <div " + "class=\"point-icon\">"),
      p.icon,
      "</div>\n" +
      ("                        " + "  <div " + "class=\"point-title\">"),
      p.title,
      "</div>\n" +
      ("                        " + "  <div " + "class=\"point-desc\">"),
      p.description,
      "</div>\n" +
      ("                        " + "</div>\n") +
      "                    "];
    JoinHasPart(parts, "", 1);
    JoinHasPart(parts, "", 3);
    JoinHasPart(parts, "", 5);
    Join(parts, "")
  }

  /** One detail item; its label, title, text, image address and image text are spliced in verbatim. */
  function RenderDetailItem(item: DetailItem): (r: string)
    ensures Contains(r, item.labelText) && Contains(r, item.title) && Contains(r, item.text)
    ensures Contains(r, item.imgSrc) && Contains(r, item.imgAlt)
  {
    var parts := [
      "\n" +
      ("                    " + "<div " + "class=\"detail-item\">\n") +
      ("                      " + "<div " + "class=\"detail-content\">\n") +
      ("                        " + "<span " + "class=\"detail-label\">"),
      item.labelText,
      "</span>\n" +
      ("                        " + "<h3 " + "class=\"detail-title\">"),
      item.title,
      "</h3>\n" +
      ("                        " + "<p class=\"detail-text\">"),
      item.text,
      "</p>\n" +
      ("                      " + "</div>\n") +
      ("                      " + "<img src=\""),
      item.imgSrc,
      "\" alt=\"",
      item.imgAlt,
      ("\" " + "crossorigin=\"anonymous\">" + "\n") +
      ("                    " + "</div>\n") +
      "                  "];
    JoinHasPart(parts, "", 1);
    JoinHasPart(parts, "", 3);
    JoinHasPart(parts, "", 5);
    JoinHasPart(parts, "", 7);
    JoinHasPart(parts, "", 9);
    Join(parts, "")
  }

  /** The usage section's optional main image: its address and text spliced in verbatim, or nothing. */
  function MainImageMarkup(mainImage: Option<MainImage>): (r: string)
    ensures mainImage.None? ==> r == ""
    ensures mainImage.Some? ==> Contains(r, mainImage.value.src) && Contains(r, mainImage.value.alt)
  {
    match mainImage
    case Some(m) =>
      var parts := [
        ("<div class=\"full-image\" " + "style=\"margin: 40px 0;\">" + "<img src=\""),
        m.src,
        "\" alt=\"",
        m.alt,
        ("\" " + "crossorigin=\"anonymous\">" + "</div>")];
      JoinHasPart(parts, "", 1);
      JoinHasPart(parts, "", 3);
      Join(parts, "")
    case None => ""
  }

  /** One usage item; its emoji, title and description are spliced in verbatim. */
  function RenderUsageItem(item: UsageItem): (r: string)
    ensures Contains(r, item.emoji) && Contains(r, item.title) && Contains(r, item.description)
  {
    var parts := [
      "\n" +
      ("                        " + "    <div " + "class=\"usage-item\">\n") +
      ("                        " + "        <div " + "class=\"usage-emoji\">"),
      item.emoji,
      "</div>\n" +
      ("                        " + "        <div " + "class=\"usage-title\">"),
      item.title,
      "</div>\n" +
      ("                        " + "        <div " + "class=\"usage-desc\">"),
      item.description,
      "</div>\n" +
      ("                        " + "    </div>\n") +
      "                        "];
    JoinHasPart(parts, "", 1);
    JoinHasPart(parts, "", 3);
    JoinHasPart(parts, "", 5);
    Join(parts, "")
  }

  /** One table row; its key and value are spliced in verbatim. */
  function RenderInfoRow(row: InfoRow): (r: string)
    ensures Contains(r, row.key) && Contains(r, row.value)
  {
    var parts := [
      "\n" +
      ("                        " + "    <tr>\n") +
      ("                        " + "        <td>"),
      row.key,
      "</td>\n" +
      ("                        " + "        <td>"),
      row.value,
      "</td>\n" +
      ("                        " + "    </tr>\n") +
      "                        "];
    JoinHasPart(parts, "", 1);
    JoinHasPart(parts, "", 3);
    Join(parts, "")
  }

  /** One notice, as a list item holding its text verbatim. */
  function RenderNoticeItem(item: string): (r: string)
    ensures Contains(r, item)
  {
    ContainsMiddle("<li>", item, "</li>");
    "<li>" + item + "</li>"
  }

  const UnknownBlockComment: string := ("<!-- Unknown block type " + "-->")

  // The fixed texts of the HeroSection template, in order.
  const HeroSectionText0: string :=
    "\n" +
    ("                <div " + "class=\"hero-section\">\n") +
    ("                  <div " + "class=\"brand-tag\">")

  const HeroSectionText1: string :=
    "</div>\n" +
    ("                  <h1 " + "class=\"main-title\">")

  const HeroSectionText2: string :=
    "</h1>\n" +
    ("                  <p " + "class=\"sub-title\">")

  const HeroSectionText3: string :=
    "</p>\n" +
    ("                  <div " + "class=\"emoji-deco\">")

  const HeroSectionText4: string :=
    "</div>\n" +
    "                </div>"

  // The fixed texts of the FullImage template, in order.
  const FullImageText0: string :=
    "\n" +
    ("                <div " + "class=\"full-image ")

  const FullImageText1: string :=
    "\">\n" +
    "                  "

  const FullImageText2: string :=
    "\n" +
    ("                  <img " + "src=\"")

  const FullImageText3: string :=
    "\" alt=\""

  const FullImageText4: string :=
    ("\" " + "crossorigin=\"anonymous\">" + "\n") +
    "                </div>"

  // The fixed texts of the CatchPhrase template, in order.
  const CatchPhraseText0: string :=
    "\n" +
    ("                <div " + "class=\"catch-section\">\n") +
    ("                  <div " + "class=\"catch-bubble\">\n") +
    ("                    " + "<div class=\"catch-text\">" + "\n") +
    "                      "

  const CatchPhraseText1: string :=
    "\n" +
    ("                    " + "</div>\n") +
    ("                  </div>" + "\n") +
    "                </div>"

  // The fixed texts of the StoryCard template, in order.
  const StoryCardText0: string :=
    "\n" +
    ("                <div " + "class=\"story-card\">\n") +
    ("                  <div " + "class=\"story-badge\">\n") +
    ("                    " + "<span>")

  const StoryCardText1: string :=
    "</span>\n" +
    ("                    " + "<span>")

  const StoryCardText2: string :=
    "</span>\n" +
    ("                  </div>" + "\n") +
    ("                  <div " + "class=\"story-main\">\n") +
    "                    "

  const StoryCardText3: string :=
    "\n" +
    ("                  </div>" + "\n") +
    ("                  <div " + "class=\"story-point\">\n") +
    "                    "

  const StoryCardText4: string :=
    "\n" +
    ("                  </div>" + "\n") +
    "                </div>"

  // The fixed texts of the ChoiceSection template, in order.
  const ChoiceSectionText0: string :=
    "\n" +
    ("                <div " + "class=\"choice-section\">\n") +
    ("                  <h2 " + "class=\"section-title\">")

  const ChoiceSectionText1: string :=
    "</h2>\n" +
    ("                  <p " + "class=\"section-subtitle\">")

  const ChoiceSectionText2: string :=
    "</p>\n" +
    ("                  <div " + "class=\"choice-grid\">\n") +
    "                    "

  const ChoiceSectionText3: string :=
    "\n" +
    ("                  </div>" + "\n") +
    "                </div>"

  // The fixed texts of the PointsSection template, in order.
  const PointsSectionText0: string :=
    "\n" +
    ("                <div " + "class=\"points-section\">\n") +
    ("                  <div " + "class=\"points-header\">\n") +
    ("                    <h2 " + "class=\"section-title\">")

  const PointsSectionText1: string :=
    "</h2>\n" +
    ("                    <p " + "class=\"section-subtitle\">")

  const PointsSectionText2: string :=
    "</p>\n" +
    ("                  </div>" + "\n") +
    ("                  <div " + "class=\"points-grid\">\n") +
    "                    "

  const PointsSectionText3: string :=
    "\n" +
    ("                  </div>" + "\n") +
    "                </div>"

  // The fixed texts of the DetailSection template, in order.
  const DetailSectionText0: string :=
    "\n" +
    ("                <div " + "class=\"detail-section\">\n") +
    ("                  <h2 " + "class=\"section-title\" " + "style=\"text-align: " + "center; margin-bottom: " + "60px;\">")

  const DetailSectionText1: string :=
    "</h2>\n" +
    "                  "

  const DetailSectionText2: string :=
    "\n" +
    "                </div>"

  // The fixed texts of the UsageSection template, in order.
  const UsageSectionText0: string :=
    "\n" +
    ("                <div " + "class=\"usage-section\">\n") +
    ("                    <h2 " + "class=\"section-title\">")

  const UsageSectionText1: string :=
    "</h2>\n" +
    ("                    <p " + "class=\"section-subtitle\">")

  const UsageSectionText2: string :=
    "</p>\n" +
    "                    "

  const UsageSectionText3: string :=
    "\n" +
    ("                    " + "<div class=\"usage-grid\">" + "\n") +
    "                        "

  const UsageSectionText4: string :=
    "\n" +
    ("                    " + "</div>\n") +
    "                </div>"

  // The fixed texts of the RecommendSection template, in order.
  const RecommendSectionText0: string :=
    "\n" +
    ("                <div " + "class=\"recommend-section\">" + "\n") +
    ("                    " + "<div " + "class=\"recommend-badge\">")

  const RecommendSectionText1: string :=
    "</div>\n" +
    ("                    " + "<div " + "class=\"recommend-text\">")

  const RecommendSectionText2: string :=
    "</div>\n" +
    "                </div>"

  // The fixed texts of the VideoTestimonial template, in order.
  const VideoTestimonialText0: string :=
    "\n" +
    ("                <div " + "class=\"video-testimonial-section\">" + "\n") +
    ("                    <h2 " + "class=\"section-title\">")

  const VideoTestimonialText1: string :=
    "</h2>\n" +
    ("                    " + "<div " + "class=\"video-wrapper\">\n") +
    ("                        " + "<iframe\n") +
    ("                        " + "    src=\"")

  const VideoTestimonialText2: string :=
    "\"\n" +
    ("                        " + "    title=\"Video " + "Testimonial\"\n") +
    ("                        " + "    frameborder=\"0\"\n") +
    ("                        " + "    " + "allow=\"accelerometer; " + "autoplay; " + "clipboard-write; " + "encrypted-media; " + "gyroscope; " + "picture-in-picture\"\n") +
    ("                        " + "    allowfullscreen>\n") +
    ("                        " + "</iframe>\n") +
    ("                    " + "</div>\n") +
    ("                    <p " + "class=\"testimonial-quote\">")

  const VideoTestimonialText3: string :=
    "</p>\n" +
    ("                    <p " + "class=\"testimonial-author\">" + "- ")

  const VideoTestimonialText4: string :=
    "</p>\n" +
    "                </div>"

  // The fixed texts of the InfoSection template, in order.
  const InfoSectionText0: string :=
    "\n" +
    ("                <div " + "class=\"info-section\">\n") +
    ("                  <h2 " + "class=\"section-title\" " + "style=\"text-align: " + "center; margin-bottom: " + "40px;\">")

  const InfoSectionText1: string :=
    "</h2>\n" +
    ("                  <div " + "class=\"info-card\">\n") +
    ("                    " + "<table " + "class=\"info-table\">\n") +
    "                        "

  const InfoSectionText2: string :=
    "\n" +
    ("                    " + "</table>\n") +
    ("                  </div>" + "\n") +
    "                </div>"

  // The fixed texts of the NoticeSection template, in order.
  const NoticeSectionText0: string :=
    "\n" +
    ("                <div " + "class=\"notice-section\">\n") +
    ("                    <h3 " + "class=\"notice-title\">")

  const NoticeSectionText1: string :=
    "</h3>\n" +
    ("                    <ul " + "class=\"notice-list\">\n") +
    "                        "

  const NoticeSectionText2: string :=
    "\n" +
    ("                    " + "</ul>\n") +
    "                </div>"

  // The fixed texts of the FooterSection template, in order.
  const FooterSectionText0: string :=
    "\n" +
    ("                <div " + "class=\"footer-section\">\n") +
    ("                    " + "<div " + "class=\"footer-logo\">")

  const FooterSectionText1: string :=
    "</div>\n" +
    ("                    <p " + "class=\"footer-text\">")

  const FooterSectionText2: string :=
    "</p>\n" +
    ("                    " + "<div " + "class=\"footer-emoji\">")

  const FooterSectionText3: string :=
    "</div>\n" +
    "                </div>"

  /**
   * The fixed texts and substitutions of a variant's template literal, in order: the
   * markup is their concatenation, fixed texts first and last, alternating with the
   * substitutions. Only the thirteen union variants have a template.
   */
  function TemplateParts(block: Block): (r: seq<string>)
    ensures r == [] <==> block.Malformed? || block.Unrecognised?
    ensures r != [] ==> |r| % 2 == 1
  {
    match block
    case HeroSection(_, brandTag, mainTitle, subTitle, emojiDeco) =>
      [HeroSectionText0, brandTag, HeroSectionText1, mainTitle, HeroSectionText2, subTitle, HeroSectionText3, emojiDeco, HeroSectionText4]
    case FullImage(_, src, alt, sticker) =>
      [FullImageText0, ImageContainerClass(sticker), FullImageText1, StickerMarkup(sticker), FullImageText2, src, FullImageText3, alt, FullImageText4]
    case CatchPhrase(_, lines) =>
      [CatchPhraseText0, Join(lines, "<br>"), CatchPhraseText1]
    case StoryCard(_, badge, mainText, pointText) =>
      [StoryCardText0, badge.icon, StoryCardText1, badge.text, StoryCardText2, mainText, StoryCardText3, pointText, StoryCardText4]
    case ChoiceSection(_, title, subtitle, choices) =>
      [ChoiceSectionText0, title, ChoiceSectionText1, subtitle, ChoiceSectionText2, Join(Map(choices, RenderChoice), ""), ChoiceSectionText3]
    case PointsSection(_, title, subtitle, points) =>
      [PointsSectionText0, title, PointsSectionText1, subtitle, PointsSectionText2, Join(Map(points, RenderPoint), ""), PointsSectionText3]
    case DetailSection(_, title, items) =>
      [DetailSectionText0, title, DetailSectionText1, Join(Map(items, RenderDetailItem), ""), DetailSectionText2]
    case UsageSection(_, title, subtitle, mainImage, items) =>
      [UsageSectionText0, title, UsageSectionText1, subtitle, UsageSectionText2, MainImageMarkup(mainImage), UsageSectionText3, Join(Map(items, RenderUsageItem), ""), UsageSectionText4]
    case RecommendSection(_, badge, text) =>
      [RecommendSectionText0, badge, RecommendSectionText1, text, RecommendSectionText2]
    case VideoTestimonial(_, title, videoUrl, quote, author) =>
      [VideoTestimonialText0, title, VideoTestimonialText1, videoUrl, VideoTestimonialText2, quote, VideoTestimonialText3, author, VideoTestimonialText4]
    case InfoSection(_, title, rows) =>
      [InfoSectionText0, title, InfoSectionText1, Join(Map(rows, RenderInfoRow), ""), InfoSectionText2]
    case NoticeSection(_, title, items) =>
      [NoticeSectionText0, title, NoticeSectionText1, Join(Map(items, RenderNoticeItem), ""), NoticeSectionText2]
    case FooterSection(_, logo, text, emoji) =>
      [FooterSectionText0, logo, FooterSectionText1, text, FooterSectionText2, emoji, FooterSectionText3]
    case _ => []
  }

  /**
   * renderBlock: one template per variant, the fixed comment for a `type` outside the
   * union, and a thrown failure for a block missing the nested field its template reads.
   */
  function RenderBlock(block: Block): (r: Result<string, RenderFailure>)
    ensures r.Err? <==> block.Malformed?
    ensures r.Err? ==> r.error == MissingNestedField(block.tag) && block.tag.CanThrow()
    ensures block.Unrecognised? ==> r == Ok(UnknownBlockComment)
  {
    match block
    case Malformed(_, tag) => Err(MissingNestedField(tag))
    case Unrecognised(_, _) => Ok(UnknownBlockComment)
    case _ => Ok(Join(TemplateParts(block), ""))
  }

  /** The identifier the error box shows; the source's `|| 'Unknown Block'` never applies, the text being non-empty. */
  function BlockIdentifier(blockId: string): (r: string)
    ensures r != ""
  {
    "ID: " + blockId
  }

  /** The two error boxes' fixed texts; they differ only in the indentation of their source templates. */
  const ImageErrorBoxHead: string :=
    ("<div style=\"border: 2px " + "dashed red; padding: " + "20px; margin: 10px 0; " + "background-color: " + "#fff5f5; color: " + "#c53030; font-family: " + "sans-serif;\">\n") +
    ("                        " + "                <p " + "style=\"margin:0; " + "font-weight: bold;\">⚠️ " + "ERROR: '")

  const ImageErrorBoxTail: string :=
    ("' 모듈을 렌더링하는 중 오류가 " + "발생했습니다.</p>\n") +
    ("                        " + "                <p " + "style=\"margin: 5px 0 0 " + "0; font-size: 12px; " + "color: #a02c2c;\">Check " + "the developer console " + "for more details.</p>\n") +
    ("                        " + "            </div>")

  const BlockErrorBoxHead: string :=
    ("<div style=\"border: 2px " + "dashed red; padding: " + "20px; margin: 10px 0; " + "background-color: " + "#fff5f5; color: " + "#c53030; font-family: " + "sans-serif;\">\n") +
    ("                        " + "            <p " + "style=\"margin:0; " + "font-weight: bold;\">⚠️ " + "ERROR: '")

  const BlockErrorBoxTail: string :=
    ("' 모듈을 렌더링하는 중 오류가 " + "발생했습니다.</p>\n") +
    ("                        " + "            <p " + "style=\"margin: 5px 0 0 " + "0; font-size: 12px; " + "color: #a02c2c;\">Check " + "the developer console " + "for more details.</p>\n") +
    ("                        " + "        </div>")

  /** The error box replacing a lone image whose rendering threw. */
  function ImageErrorBox(blockIdentifier: string): string {
    ImageErrorBoxHead + blockIdentifier + ImageErrorBoxTail
  }

  /** The error box replacing any other block whose rendering threw. */
  function BlockErrorBox(blockIdentifier: string): string {
    BlockErrorBoxHead + blockIdentifier + BlockErrorBoxTail
  }

  /** The top-level text fields of a block, in template order. */
  function TextFields(b: Block): seq<string> {
    match b
    case HeroSection(_, brandTag, mainTitle, subTitle, emojiDeco) => [brandTag, mainTitle, subTitle, emojiDeco]
    case FullImage(_, src, alt, sticker) => [src, alt]
    case CatchPhrase(_, lines) => []
    case StoryCard(_, badge, mainText, pointText) => [badge.icon, badge.text, mainText, pointText]
    case ChoiceSection(_, title, subtitle, choices) => [title, subtitle]
    case PointsSection(_, title, subtitle, points) => [title, subtitle]
    case DetailSection(_, title, items) => [title]
    case UsageSection(_, title, subtitle, mainImage, items) => [title, subtitle]
    case RecommendSection(_, badge, text) => [badge, text]
    case VideoTestimonial(_, title, videoUrl, quote, author) => [title, videoUrl, quote, author]
    case InfoSection(_, title, rows) => [title]
    case NoticeSection(_, title, items) => [title]
    case FooterSection(_, logo, text, emoji) => [logo, text, emoji]
    case _ => []
  }

  /** Where each of TextFields sits among TemplateParts. */
  function FieldPositions(b: Block): (r: seq<nat>)
    ensures |r| == |TextFields(b)|
    ensures forall i, j | 0 <= i < j < |r| :: r[i] < r[j]
  {
    match b
    case HeroSection(_, _, _, _, _) => [1, 3, 5, 7]
    case FullImage(_, _, _, _) => [5, 7]
    case CatchPhrase(_, _) => []
    case StoryCard(_, _, _, _) => [1, 3, 5, 7]
    case ChoiceSection(_, _, _, _) => [1, 3]
    case PointsSection(_, _, _, _) => [1, 3]
    case DetailSection(_, _, _) => [1]
    case UsageSection(_, _, _, _, _) => [1, 3]
    case RecommendSection(_, _, _) => [1, 3]
    case VideoTestimonial(_, _, _, _, _) => [1, 3, 5, 7]
    case InfoSection(_, _, _) => [1]
    case NoticeSection(_, _, _) => [1]
    case FooterSection(_, _, _, _) => [1, 3, 5]
    case _ => []
  }

  /** The parts of the block's one list, in list order: rendered items, or the catch phrase's lines. */
  function ListParts(b: Block): seq<string> {
    match b
    case CatchPhrase(_, lines) => lines
    case ChoiceSection(_, title, subtitle, choices) => Map(choices, RenderChoice)
    case PointsSection(_, title, subtitle, points) => Map(points, RenderPoint)
    case DetailSection(_, title, items) => Map(items, RenderDetailItem)
    case UsageSection(_, title, subtitle, mainImage, items) => Map(items, RenderUsageItem)
    case InfoSection(_, title, rows) => Map(rows, RenderInfoRow)
    case NoticeSection(_, title, items) => Map(items, RenderNoticeItem)
    case _ => []
  }

  /** Where the joined list sits among TemplateParts. */
  function ListPosition(b: Block): nat {
    match b
    case CatchPhrase(_, _) => 1
    case ChoiceSection(_, _, _, _) => 5
    case PointsSection(_, _, _, _) => 5
    case DetailSection(_, _, _) => 3
    case UsageSection(_, _, _, _, _) => 7
    case InfoSection(_, _, _) => 3
    case NoticeSection(_, _, _) => 3
    case _ => 0
  }

  /** ListParts joined as the template joins them: '<br>' between catch-phrase lines, '' between items. */
  function ListSeparator(b: Block): string {
    if b.CatchPhrase? then "<br>" else ""
  }

  /** The variants whose template joins a list. */
  predicate HasList(b: Block) {
    b.CatchPhrase? || b.ChoiceSection? || b.PointsSection? || b.DetailSection?
    || b.UsageSection? || b.InfoSection? || b.NoticeSection?
  }

  /**
   * TemplateParts substitutes each text field at the position FieldPositions names, and a
   * list variant's joined list at ListPosition.
   */
  predicate TemplateAligned(b: Block) {
    && (forall k | 0 <= k < |TextFields(b)| ::
          FieldPositions(b)[k] < |TemplateParts(b)| && TemplateParts(b)[FieldPositions(b)[k]] == TextFields(b)[k])
    && (HasList(b) ==>
          ListPosition(b) < |TemplateParts(b)| && TemplateParts(b)[ListPosition(b)] == Join(ListParts(b), ListSeparator(b)))
  }

  lemma AllTemplatesAligned(b: Block)
    ensures TemplateAligned(b)
  {
    match b
    case HeroSection(_, _, _, _, _) => HeroSectionAligned(b);
    case FullImage(_, _, _, _) => FullImageAligned(b);
    case CatchPhrase(_, _) => CatchPhraseAligned(b);
    case StoryCard(_, _, _, _) => StoryCardAligned(b);
    case ChoiceSection(_, _, _, _) => ChoiceSectionAligned(b);
    case PointsSection(_, _, _, _) => PointsSectionAligned(b);
    case DetailSection(_, _, _) => DetailSectionAligned(b);
    case UsageSection(_, _, _, _, _) => UsageSectionAligned(b);
    case RecommendSection(_, _, _) => RecommendSectionAligned(b);
    case VideoTestimonial(_, _, _, _, _) => VideoTestimonialAligned(b);
    case InfoSection(_, _, _) => InfoSectionAligned(b);
    case NoticeSection(_, _, _) => NoticeSectionAligned(b);
    case FooterSection(_, _, _, _) => FooterSectionAligned(b);
    case _ =>
  }

  /** Every top-level text field is spliced into the block's markup verbatim: nothing is escaped or dropped. */
  lemma FieldsVerbatim(b: Block, k: nat)
    requires k < |TextFields(b)|
    ensures RenderBlock(b).Ok? && Contains(RenderBlock(b).value, TextFields(b)[k])
  {
    AllTemplatesAligned(b);
    JoinHasPart(TemplateParts(b), "", FieldPositions(b)[k]);
  }

  /** The fields appear in the order TextFields lists them. */
  lemma FieldsInOrder(b: Block, j: nat, k: nat)
    requires j < k < |TextFields(b)|
    ensures RenderBlock(b).Ok? && Precedes(RenderBlock(b).value, TextFields(b)[j], TextFields(b)[k])
  {
    AllTemplatesAligned(b);
    JoinInOrder(TemplateParts(b), "", FieldPositions(b)[j], FieldPositions(b)[k]);
  }

  /** The block's list is rendered as one contiguous run of its joined parts. */
  lemma ListJoined(b: Block)
    requires HasList(b)
    ensures RenderBlock(b).Ok? && Contains(RenderBlock(b).value, Join(ListParts(b), ListSeparator(b)))
  {
    AllTemplatesAligned(b);
    JoinHasPart(TemplateParts(b), "", ListPosition(b));
  }

  /** Every list part occurs in the block's markup. */
  lemma ListPartPresent(b: Block, k: nat)
    requires k < |ListParts(b)|
    ensures RenderBlock(b).Ok? && Contains(RenderBlock(b).value, ListParts(b)[k])
  {
    ListJoined(b);
    JoinHasPart(ListParts(b), ListSeparator(b), k);
    ContainsTrans(RenderBlock(b).value, Join(ListParts(b), ListSeparator(b)), ListParts(b)[k]);
  }

  /** The block's markup keeps its list in order: an earlier part occurs before a later one. */
  lemma ListPartsInOrder(b: Block, j: nat, k: nat)
    requires j < k < |ListParts(b)|
    ensures RenderBlock(b).Ok? && Precedes(RenderBlock(b).value, ListParts(b)[j], ListParts(b)[k])
  {
    ListJoined(b);
    JoinInOrder(ListParts(b), ListSeparator(b), j, k);
    PrecedesTrans(RenderBlock(b).value, Join(ListParts(b), ListSeparator(b)), ListParts(b)[j], ListParts(b)[k]);
  }

  /** A carousel shows slide j before slide k, in run order. */
  lemma CarouselSlidesInOrder(images: seq<ImageBlock>, carouselId: string, j: nat, k: nat)
    requires j < k < |images|
    ensures Precedes(RenderCarousel(images, carouselId), RenderSlide(images[j]), RenderSlide(images[k]))
  {
    var r := RenderCarousel(images, carouselId);
    var pre := CarouselOpen + carouselId + CarouselTrackOpen;
    ContainsMiddle(pre, SlidesMarkup(images), CarouselControls);
    ContainsLeft(pre + SlidesMarkup(images) + CarouselControls, DotsMarkup(|images|) + CarouselClose, SlidesMarkup(images));
    assert r == pre + SlidesMarkup(images) + CarouselControls + (DotsMarkup(|images|) + CarouselClose);
    JoinInOrder(Map(images, RenderSlide), "", j, k);
    PrecedesTrans(r, SlidesMarkup(images), RenderSlide(images[j]), RenderSlide(images[k]));
  }

  /** A carousel has a dot for each slide k, carrying k as its index and "Go to slide k+1" as its label; only the first starts active. */
  lemma CarouselDot(images: seq<ImageBlock>, carouselId: string, k: nat)
    requires k < |images|
    ensures Contains(RenderCarousel(images, carouselId), RenderDot(k))
    ensures Contains(RenderDot(k), DataIndexAttribute(k))
    ensures Contains(RenderDot(k), "aria-label=\"Go to slide " + NatToString(k + 1) + "\"")
    ensures DotActive(k) <==> k == 0
  {
    var r := RenderCarousel(images, carouselId);
    var pre := CarouselOpen + carouselId + CarouselTrackOpen + SlidesMarkup(images) + CarouselControls;
    ContainsMiddle(pre, DotsMarkup(|images|), CarouselClose);
    assert Indices(|images|)[k] == k;
    JoinHasPart(Map(Indices(|images|), RenderDot), "", k);
    ContainsTrans(r, DotsMarkup(|images|), RenderDot(k));
  }

  /** The sticker `div` the source writes for a sticker's text. */
  function StickerDiv(text: string): (r: string)
    ensures r == "<div class=\"sticker top-right\">" + text + "</div>"
  {
    StickerMarkup(Some(Sticker(text, TopRight)))
  }

  /**
   * A sticker gives a carousel slide the `image-with-sticker` class and its text in a
   * top-right sticker `div`; without one both slots of the slide are empty.
   */
  lemma SlideSticker(img: ImageBlock)
    ensures img.sticker.Some? ==>
      RenderSlide(img) == SlideMarkup("image-with-sticker", StickerDiv(img.sticker.value.text), img.src, img.alt)
    ensures img.sticker.None? ==> RenderSlide(img) == SlideMarkup("", "", img.src, img.alt)
    ensures img.sticker.Some? ==>
      && Contains(RenderSlide(img), "image-with-sticker")
      && Contains(RenderSlide(img), "<div class=\"sticker top-right\">" + img.sticker.value.text + "</div>")
  {
    if img.sticker.Some? {
      assert img.sticker.value == Sticker(img.sticker.value.text, TopRight);
      SlideSlots("image-with-sticker", StickerDiv(img.sticker.value.text), img.src, img.alt);
    }
  }

  /** Both slots of the slide template appear in the slide. */
  lemma SlideSlots(containerClass: string, stickerHtml: string, src: string, alt: string)
    ensures Contains(SlideMarkup(containerClass, stickerHtml, src, alt), containerClass)
    ensures Contains(SlideMarkup(containerClass, stickerHtml, src, alt), stickerHtml)
  {
    var parts := [SlideText0, containerClass, SlideText1, stickerHtml, SlideText2, src, SlideText3, alt, SlideText4];
    JoinHasPart(parts, "", 1);
    JoinHasPart(parts, "", 3);
  }

  /**
   * The same for a standalone full image: a sticker fills the class slot with
   * `image-with-sticker` and the sticker slot with its `div`; without one both are empty.
   */
  lemma FullImageSticker(b: Block)
    requires b.FullImage?
    ensures b.sticker.Some? ==>
      TemplateParts(b) == [FullImageText0, "image-with-sticker", FullImageText1, StickerDiv(b.sticker.value.text),
                           FullImageText2, b.src, FullImageText3, b.alt, FullImageText4]
    ensures b.sticker.None? ==>
      TemplateParts(b) == [FullImageText0, "", FullImageText1, "", FullImageText2, b.src, FullImageText3, b.alt, FullImageText4]
    ensures b.sticker.Some? ==>
      && RenderBlock(b).Ok?
      && Contains(RenderBlock(b).value, "image-with-sticker")
      && Contains(RenderBlock(b).value, "<div class=\"sticker top-right\">" + b.sticker.value.text + "</div>")
  {
    if b.sticker.Some? {
      assert b.sticker.value == Sticker(b.sticker.value.text, TopRight);
      JoinHasPart(TemplateParts(b), "", 1);
      JoinHasPart(TemplateParts(b), "", 3);
    }
  }

  /** Every field of every choice card reaches the section's markup verbatim. */
  lemma ChoiceFieldsVerbatim(b: Block, k: nat)
    requires b.ChoiceSection? && k < |b.choices|
    ensures RenderBlock(b).Ok?
    ensures Contains(RenderBlock(b).value, b.choices[k].labelText) && Contains(RenderBlock(b).value, b.choices[k].name)
    ensures Contains(RenderBlock(b).value, b.choices[k].imgSrc) && Contains(RenderBlock(b).value, b.choices[k].imgAlt)
  {
    ListPartPresent(b, k);
    var page, card := RenderBlock(b).value, RenderChoice(b.choices[k]);
    assert ListParts(b)[k] == card;
    ContainsTrans(page, card, b.choices[k].labelText);
    ContainsTrans(page, card, b.choices[k].name);
    ContainsTrans(page, card, b.choices[k].imgSrc);
    ContainsTrans(page, card, b.choices[k].imgAlt);
  }

  /** Every field of every selling point reaches the section's markup verbatim. */
  lemma PointFieldsVerbatim(b: Block, k: nat)
    requires b.PointsSection? && k < |b.points|
    ensures RenderBlock(b).Ok?
    ensures Contains(RenderBlock(b).value, b.points[k].icon) && Contains(RenderBlock(b).value, b.points[k].title)
    ensures Contains(RenderBlock(b).value, b.points[k].description)
  {
    ListPartPresent(b, k);
    var page, item := RenderBlock(b).value, RenderPoint(b.points[k]);
    assert ListParts(b)[k] == item;
    ContainsTrans(page, item, b.points[k].icon);
    ContainsTrans(page, item, b.points[k].title);
    ContainsTrans(page, item, b.points[k].description);
  }

  /** Every field of every detail item reaches the section's markup verbatim. */
  lemma DetailItemFieldsVerbatim(b: Block, k: nat)
    requires b.DetailSection? && k < |b.detailItems|
    ensures RenderBlock(b).Ok?
    ensures Contains(RenderBlock(b).value, b.detailItems[k].labelText) && Contains(RenderBlock(b).value, b.detailItems[k].title)
    ensures Contains(RenderBlock(b).value, b.detailItems[k].text)
    ensures Contains(RenderBlock(b).value, b.detailItems[k].imgSrc) && Contains(RenderBlock(b).value, b.detailItems[k].imgAlt)
  {
    ListPartPresent(b, k);
    var page, item := RenderBlock(b).value, RenderDetailItem(b.detailItems[k]);
    assert ListParts(b)[k] == item;
    ContainsTrans(page, item, b.detailItems[k].labelText);
    ContainsTrans(page, item, b.detailItems[k].title);
    ContainsTrans(page, item, b.detailItems[k].text);
    ContainsTrans(page, item, b.detailItems[k].imgSrc);
    ContainsTrans(page, item, b.detailItems[k].imgAlt);
  }

  /** Every field of every usage item reaches the section's markup verbatim. */
  lemma UsageItemFieldsVerbatim(b: Block, k: nat)
    requires b.UsageSection? && k < |b.usageItems|
    ensures RenderBlock(b).Ok?
    ensures Contains(RenderBlock(b).value, b.usageItems[k].emoji) && Contains(RenderBlock(b).value, b.usageItems[k].title)
    ensures Contains(RenderBlock(b).value, b.usageItems[k].description)
  {
    ListPartPresent(b, k);
    var page, item := RenderBlock(b).value, RenderUsageItem(b.usageItems[k]);
    assert ListParts(b)[k] == item;
    ContainsTrans(page, item, b.usageItems[k].emoji);
    ContainsTrans(page, item, b.usageItems[k].title);
    ContainsTrans(page, item, b.usageItems[k].description);
  }

  /** The usage section's main image, when present, reaches its markup with address and text verbatim. */
  lemma UsageMainImageVerbatim(b: Block)
    requires b.UsageSection? && b.mainImage.Some?
    ensures RenderBlock(b).Ok?
    ensures Contains(RenderBlock(b).value, b.mainImage.value.src) && Contains(RenderBlock(b).value, b.mainImage.value.alt)
  {
    var image := MainImageMarkup(b.mainImage);
    JoinHasPart(TemplateParts(b), "", 5);
    ContainsTrans(RenderBlock(b).value, image, b.mainImage.value.src);
    ContainsTrans(RenderBlock(b).value, image, b.mainImage.value.alt);
  }

  /** Every key and value of the table reaches the section's markup verbatim. */
  lemma InfoRowFieldsVerbatim(b: Block, k: nat)
    requires b.InfoSection? && k < |b.rows|
    ensures RenderBlock(b).Ok?
    ensures Contains(RenderBlock(b).value, b.rows[k].key) && Contains(RenderBlock(b).value, b.rows[k].value)
  {
    ListPartPresent(b, k);
    var page, row := RenderBlock(b).value, RenderInfoRow(b.rows[k]);
    assert ListParts(b)[k] == row;
    ContainsTrans(page, row, b.rows[k].key);
    ContainsTrans(page, row, b.rows[k].value);
  }

  /** Every notice reaches the section's markup verbatim. */
  lemma NoticeItemVerbatim(b: Block, k: nat)
    requires b.NoticeSection? && k < |b.noticeItems|
    ensures RenderBlock(b).Ok? && Contains(RenderBlock(b).value, b.noticeItems[k])
  {
    ListPartPresent(b, k);
    var page, item := RenderBlock(b).value, RenderNoticeItem(b.noticeItems[k]);
    assert ListParts(b)[k] == item;
    ContainsTrans(page, item, b.noticeItems[k]);
  }

  /** Either error box names the failed block by its identifier. */
  lemma ErrorBoxesNameBlock(blockId: string)
    ensures Contains(ImageErrorBox(BlockIdentifier(blockId)), "ID: " + blockId)
    ensures Contains(BlockErrorBox(BlockIdentifier(blockId)), "ID: " + blockId)
  {
    ContainsMiddle(ImageErrorBoxHead, BlockIdentifier(blockId), ImageErrorBoxTail);
    ContainsMiddle(BlockErrorBoxHead, BlockIdentifier(blockId), BlockErrorBoxTail);
  }

  // Per-variant steps of AllTemplatesAligned.

  lemma HeroSectionAligned(b: Block)
    requires b.HeroSection?
    ensures TemplateAligned(b)
  {
  }

  lemma FullImageAligned(b: Block)
    requires b.FullImage?
    ensures TemplateAligned(b)
  {
  }

  lemma CatchPhraseAligned(b: Block)
    requires b.CatchPhrase?
    ensures TemplateAligned(b)
  {
  }

  lemma StoryCardAligned(b: Block)
    requires b.StoryCard?
    ensures TemplateAligned(b)
  {
  }

  lemma ChoiceSectionAligned(b: Block)
    requires b.ChoiceSection?
    ensures TemplateAligned(b)
  {
  }

  lemma PointsSectionAligned(b: Block)
    requires b.PointsSection?
    ensures TemplateAligned(b)
  {
  }

  lemma DetailSectionAligned(b: Block)
    requires b.DetailSection?
    ensures TemplateAligned(b)
  {
  }

  lemma UsageSectionAligned(b: Block)
    requires b.UsageSection?
    ensures TemplateAligned(b)
  {
  }

  lemma RecommendSectionAligned(b: Block)
    requires b.RecommendSection?
    ensures TemplateAligned(b)
  {
  }

  lemma VideoTestimonialAligned(b: Block)
    requires b.VideoTestimonial?
    ensures TemplateAligned(b)
  {
  }

  lemma InfoSectionAligned(b: Block)
    requires b.InfoSection?
    ensures TemplateAligned(b)
  {
  }

  lemma NoticeSectionAligned(b: Block)
    requires b.NoticeSection?
    ensures TemplateAligned(b)
  {
  }

  lemma FooterSectionAligned(b: Block)
    requires b.FooterSection?
    ensures TemplateAligned(b)
  {
  }
}
