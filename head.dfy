/**
 * Head generation (generateHead): the font registry FONT_MAP, the fallback to
 * 'Noto Sans KR', the Google Fonts URL (selected family plus the fixed Quicksand
 * family), the title and the stylesheet with the one font substitution.
 */
module Head {
  import opened Strings
  import opened Blocks
  import Stylesheet

  /** A FONT_MAP entry: URL family, URL weight list and CSS font-family name. */
  datatype FontDescriptor = FontDescriptor(family: string, weights: string, name: string)

  const DefaultFontKey: string := "Noto Sans KR"

  /** The descriptor registered under DefaultFontKey. */
  const DefaultFont: FontDescriptor := FontDescriptor("Noto+Sans+KR", "400,700,900", "'Noto Sans KR'")

  /** FONT_MAP: the five supported fonts. */
  const FontMap: map<string, FontDescriptor> := map[
    DefaultFontKey := DefaultFont,
    "Gothic A1" := FontDescriptor("Gothic+A1", "400,700,900", "'Gothic A1'"),
    "Nanum Gothic" := FontDescriptor("Nanum+Gothic", "400,700,800", "'Nanum Gothic'"),
    "Nanum Myeongjo" := FontDescriptor("Nanum+Myeongjo", "400,700,800", "'Nanum Myeongjo'"),
    "IBM Plex Sans KR" := FontDescriptor("IBM+Plex+Sans+KR", "400,500,700", "'IBM Plex Sans KR'")
  ]

  /** The tail of every font URL: the secondary display family and the display mode. */
  const SecondaryFamily: string := ("&family=Quicksand:wght@400;600;700&display=swap")

  /**
   * `FONT_MAP[fontName] || FONT_MAP['Noto Sans KR']`, reading only the registry's own
   * entries: one of the five names selects its descriptor, every other name selects
   * the default. (The lookup as the source writes it is FontLookupAsWritten below.)
   */
  function SelectFont(fontName: string): (d: FontDescriptor)
    ensures d in FontMap.Values
    ensures fontName in FontMap ==> d == FontMap[fontName]
    ensures fontName !in FontMap ==> d == FontMap[DefaultFontKey] == DefaultFont
  {
    if fontName in FontMap then FontMap[fontName] else FontMap[DefaultFontKey]
  }

  function FontUrl(font: FontDescriptor): string {
    ("https://fonts.googleapis.com/css2?family=") + font.family + ":wght@" + font.weights + SecondaryFamily
  }

  /** The body rule's declaration naming the font, falling back to sans-serif. */
  function FontFamilyRule(font: FontDescriptor): string {
    "font-family: " + font.name + ", sans-serif;"
  }

  /** The declaration's line in the stylesheet. */
  function FontFamilyDeclaration(font: FontDescriptor): string {
    "  " + FontFamilyRule(font) + "\n"
  }

  function TitleElement(plan: ProductPlan): string {
    "<title>" + plan.project + " - " + plan.description + "</title>\n"
  }

  /** The text before the title. */
  const HeadOpening: string :=
    "\n" +
    "<head>\n" +
    "<meta charset=\"UTF-8\">\n" +
    ("<meta name=\"viewport\" " + "content=\"width=device-width, " + "initial-scale=1.0\">\n")

  /** The stylesheet links, around the font URL. */
  function FontLinks(fontUrl: string): string {
    FontLinkPrefix + fontUrl + FontLinkSuffix
  }

  const FontLinkPrefix: string :=
    "\n" +
    ("<link rel=\"preconnect\" " + "href=\"https://fonts.googleapis.com\">" + "\n") +
    ("<link rel=\"preconnect\" " + "href=\"https://fonts.gstatic.com\" " + "crossorigin>\n") +
    "<link href=\""

  const FontLinkSuffix: string := ("\" rel=\"stylesheet\" " + "crossorigin=\"anonymous\">" + "\n")

  /** The stylesheet text before the body rule's font-family declaration. */
  const RulesBeforeFontFamily: string :=
    "\n" +
    "<style>\n" +
    "* {\n" +
    "  margin: 0;\n" +
    "  padding: 0;\n" +
    ("  box-sizing: " + "border-box;\n") +
    "}\n" +
    "\n" +
    "body {\n"

  /**
   * generateHead: the head for the font the name selects. It holds the title, the
   * selected font's URL and its font-family rule.
   */
  function GenerateHead(plan: ProductPlan, fontName: string): (r: string)
    ensures Contains(r, TitleElement(plan))
    ensures Contains(r, FontUrl(SelectFont(fontName)))
    ensures Contains(r, FontFamilyRule(SelectFont(fontName)))
  {
    HeadHasTitle(plan, SelectFont(fontName));
    HeadHasFontUrl(plan, SelectFont(fontName));
    HeadHasFontFamily(plan, SelectFont(fontName));
    HeadWithFont(plan, SelectFont(fontName))
  }

  /** The head template once `selectedFont` is fixed. */
  function HeadWithFont(plan: ProductPlan, selectedFont: FontDescriptor): string {
    var fontUrl := FontUrl(selectedFont);
    HeadOpening + TitleElement(plan) + FontLinks(fontUrl) + RulesBeforeFontFamily
      + FontFamilyDeclaration(selectedFont) + Stylesheet.RulesAfterFontFamily
  }

  /** Every font URL asks for the selected family with its weights and then for Quicksand. */
  lemma FontUrlShape(font: FontDescriptor)
    ensures StartsWith(FontUrl(font), ("https://fonts.googleapis.com/css2?family=") + font.family + ":wght@" + font.weights)
    ensures EndsWith(FontUrl(font), SecondaryFamily)
  {
    var url := FontUrl(font);
    var p := ("https://fonts.googleapis.com/css2?family=") + font.family + ":wght@" + font.weights;
    assert url == p + SecondaryFamily;
    assert url[..|p|] == p;
    assert url[|url| - |SecondaryFamily|..] == SecondaryFamily;
  }

  /** The head carries the title built from project and description. */
  lemma HeadHasTitle(plan: ProductPlan, font: FontDescriptor)
    ensures Contains(HeadWithFont(plan, font), TitleElement(plan))
  {
    var title := TitleElement(plan);
    var links := FontLinks(FontUrl(font));
    var decl := FontFamilyDeclaration(font);
    ContainsSelf(title);
    ContainsRight(HeadOpening, title, title);
    ContainsLeft(HeadOpening + title, links, title);
    ContainsLeft(HeadOpening + title + links, RulesBeforeFontFamily, title);
    ContainsLeft(HeadOpening + title + links + RulesBeforeFontFamily, decl, title);
    ContainsLeft(HeadOpening + title + links + RulesBeforeFontFamily + decl, Stylesheet.RulesAfterFontFamily, title);
  }

  /** The head links the font's stylesheet URL. */
  lemma HeadHasFontUrl(plan: ProductPlan, font: FontDescriptor)
    ensures Contains(HeadWithFont(plan, font), FontUrl(font))
  {
    var url := FontUrl(font);
    var title := TitleElement(plan);
    var links := FontLinks(url);
    var decl := FontFamilyDeclaration(font);
    ContainsMiddle(FontLinkPrefix, url, FontLinkSuffix);
    ContainsRight(HeadOpening + title, links, url);
    ContainsLeft(HeadOpening + title + links, RulesBeforeFontFamily, url);
    ContainsLeft(HeadOpening + title + links + RulesBeforeFontFamily, decl, url);
    ContainsLeft(HeadOpening + title + links + RulesBeforeFontFamily + decl, Stylesheet.RulesAfterFontFamily, url);
  }

  /** The body rule's font-family is the font's CSS name. */
  lemma HeadHasFontFamily(plan: ProductPlan, font: FontDescriptor)
    ensures Contains(HeadWithFont(plan, font), FontFamilyRule(font))
  {
    var title := TitleElement(plan);
    var links := FontLinks(FontUrl(font));
    var decl := FontFamilyDeclaration(font);
    var rule := FontFamilyRule(font);
    ContainsMiddle("  ", rule, "\n");
    ContainsRight(HeadOpening + title + links + RulesBeforeFontFamily, decl, rule);
    ContainsLeft(HeadOpening + title + links + RulesBeforeFontFamily + decl, Stylesheet.RulesAfterFontFamily, rule);
  }

  /** A name outside the registry never fails: the head uses 'Noto Sans KR' and its URL family. */
  lemma UnknownFontFallsBack(plan: ProductPlan, fontName: string)
    requires fontName !in FontMap
    ensures Contains(GenerateHead(plan, fontName), ("font-family: 'Noto Sans " + "KR', sans-serif;"))
    ensures Contains(GenerateHead(plan, fontName), FontUrl(DefaultFont))
  {
    var font := SelectFont(fontName);
    assert font == DefaultFont;
    HeadHasFontUrl(plan, font);
    HeadHasFontFamily(plan, font);
    DefaultFontRule();
  }

  /** The default descriptor's declaration, spelt out. */
  lemma DefaultFontRule()
    ensures FontFamilyRule(DefaultFont) == ("font-family: 'Noto Sans " + "KR', sans-serif;")
  {
  }

  // ---------------------------------------------------------------------------
  // The lookup as written: a property read on an object literal

  /**
   * The names a property read on an object literal resolves through Object.prototype
   * when the object has no own property of that name.
   */
  const ObjectPrototypeMembers: set<string> := {
    "constructor", "hasOwnProperty", "isPrototypeOf", "propertyIsEnumerable",
    "toLocaleString", "toString", "valueOf", "__proto__",
    "__defineGetter__", "__defineSetter__", "__lookupGetter__", "__lookupSetter__"
  }

  /** What `FONT_MAP[fontName]` yields. */
  datatype PropertyRead = OwnEntry(font: FontDescriptor) | InheritedMember(member: string) | Undefined

  function FontLookupAsWritten(fontName: string): (r: PropertyRead)
    ensures r.OwnEntry? <==> fontName in FontMap
    ensures r.OwnEntry? ==> r.font == FontMap[fontName]
    ensures r.InheritedMember? <==> fontName !in FontMap && fontName in ObjectPrototypeMembers
    ensures r.InheritedMember? ==> r.member == fontName
  {
    if fontName in FontMap then OwnEntry(FontMap[fontName])
    else if fontName in ObjectPrototypeMembers then InheritedMember(fontName)
    else Undefined
  }

  /**
   * `FONT_MAP[fontName] || FONT_MAP['Noto Sans KR']` as written: an inherited member is
   * truthy, so it is used as a descriptor; its `family` and `weights` read as undefined
   * and its `name` is the inherited function's name ('Object' for `constructor`, none
   * for the `__proto__` object).
   */
  function SelectFontAsWritten(fontName: string): (d: FontDescriptor)
    ensures fontName !in ObjectPrototypeMembers ==> d == SelectFont(fontName)
    ensures fontName in ObjectPrototypeMembers && fontName !in FontMap ==>
      d.family == "undefined" && d.weights == "undefined" && d != SelectFont(fontName)
  {
    match FontLookupAsWritten(fontName)
    case OwnEntry(font) => font
    case InheritedMember(member) =>
      var name := if member == "constructor" then "Object" else if member == "__proto__" then "undefined" else member;
      FontDescriptor("undefined", "undefined", name)
    case Undefined => FontMap[DefaultFontKey]
  }

  /** As written, the name 'toString' is not in the registry and yet is not given the default font. */
  lemma InheritedNameBypassesFallback()
    ensures "toString" !in FontMap
    ensures SelectFontAsWritten("toString") == FontDescriptor("undefined", "undefined", "toString")
    ensures SelectFontAsWritten("toString") != SelectFont("toString")
  {
    assert "toString" in ObjectPrototypeMembers;
  }

}
