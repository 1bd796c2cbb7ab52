# Detail-page studio: the page compiler and the editor's data logic

This project models the core of a product detail-page studio, a React application that
compiles a JSON page plan into one self-contained HTML document and lets an AI model
critique and edit that plan.

The model covers these parts:

- **The page compiler** (`services/htmlGenerator.ts`):
  - the font registry and the `<head>`;
  - the renderer for each of the thirteen block variants and for the image carousel;
  - the body scan that turns runs of consecutive images into numbered carousels, and
    replaces a block whose rendering throws with an error box;
  - the carousel script's index logic: next, previous, dot clicks and resize;
  - `generateHtml`, which checks the parsed plan's structure and assembles the document.
- **The block types** (`types.ts`): the block union, its `type` strings, and the plan.
- **The editor's data logic** (`App.tsx`):
  - the recursive replacement of an image address inside a plan;
  - the grouping of AI feedback by category;
  - the slicing of the exported page into image files;
  - how a `data:` URL is read back into a payload and a media type;
  - the updates to the suggestion list;
  - the one-step undo, including what an AI edit that throws does to the snapshot.
- **The AI service's text clean-ups** (`services/aiService.ts`):
  - stripping the code fences from a model's reply;
  - eliding the first style sheet before a page is sent for critique.

Modules:

| module | file | what it holds |
|---|---|---|
| `Results` | results.dfy | `Option` and `Result` |
| `Strings` | strings.dfy | decimal numbers, joining, searching and JavaScript's `trim` |
| `Blocks` | blocks.dfy | the block union and the plan |
| `Head` | head.dfy | the font registry and the head |
| `Render` | render.dfy | the block templates, the carousel and the error boxes |
| `Stylesheet` | stylesheet.dfy | the fixed style sheet text |
| `BodyScript` | body_script.dfy | the fixed script text |
| `Compose` | compose.dfy | the body scan, as a plan of fragments and as the loop itself |
| `Assemble` | assemble.dfy | `generateHtml` |
| `CarouselBehaviour` | carousel.dfy | the script's state, as a class |
| `FindReplace` | app_json.dfy | the recursive address replacement |
| `Feedback` | app_feedback.dfy | the grouping and the suggestion-list updates |
| `ExportSlices` | app_export.dfy | the slice loop |
| `DataUrls` | app_data_url.dfy | `urlToBase64`'s data branch and the upload dialog |
| `EditorHistory` | app_undo.dfy | the snapshot and the undo |
| `AiText` | ai_text.dfy | fence stripping and style elision |

How the source's form carries over:

- Code that changes state step by step is written as methods with loops, each proved against
  a specification function:
  - the body scan (`Compose.ScanBlocks`);
  - the feedback grouping (`Feedback.GroupFeedback`);
  - the slice loop (`ExportSlices.PlanSlices`);
  - the address replacement (`FindReplace.RecursiveFindAndReplace`);
  - the reply clean-up (`AiText.CleanModelHtml`).
- The carousel script's closure state is a class (`CarouselBehaviour.Carousel`).
- The React state updates are functions from the old state to the new state.

## Model

| member | source | states |
|---|---|---|
| Blocks.TagIndex | types.ts:161-174 | every variant of the union has a position in the list of `type` strings, and its own name sits at that position |
| Blocks.KnownTypesExact | types.ts:32-174 | the union has exactly thirteen variants, their `type` strings are pairwise distinct, and every variant's string is among them |
| Blocks.TagNamesDistinct | types.ts:32-174 | two variants with the same `type` string are the same variant |
| Blocks.FullImageTypeIff | types.ts:45-53 | a block's `type` is `full_image` exactly when it is an image block |
| Head.SelectFont | services/htmlGenerator.ts:19-29 | the chosen descriptor is always one of the five registry entries: the named one when the name is a key, `Noto Sans KR` otherwise |
| Head.FontUrlShape | services/htmlGenerator.ts:30 | the font URL asks for the selected family with its weights, then for Quicksand |
| Head.HeadHasTitle | services/htmlGenerator.ts:28-60 | the head carries the title built from the project and the description |
| Head.HeadHasFontUrl | services/htmlGenerator.ts:28-60 | the head links the selected font's style sheet URL |
| Head.HeadHasFontFamily | services/htmlGenerator.ts:28-60 | the body rule in the head uses the selected font's CSS name |
| Head.GenerateHead | services/htmlGenerator.ts:28-60 | for any font name, the generated head holds the title, the selected font's URL and its font-family rule |
| Head.UnknownFontFallsBack | services/htmlGenerator.ts:29 | a name outside the registry gets the `Noto Sans KR` font-family rule and URL |
| Head.DefaultFontRule | services/htmlGenerator.ts:20 | the default descriptor's declaration is `font-family: 'Noto Sans KR', sans-serif;` |
| Head.InheritedNameBypassesFallback | services/htmlGenerator.ts:29 | as written, `toString` is not a registry key, yet it gets an `undefined` family instead of the default font |
| Head.FontLookupAsWritten | services/htmlGenerator.ts:29 | the property read finds an own registry entry exactly for a registry key, and an inherited member exactly for a non-key naming an `Object.prototype` member, and otherwise nothing |
| Head.SelectFontAsWritten | services/htmlGenerator.ts:29 | for names that are not inherited object members, the selection as written agrees with the corrected one; for an inherited member outside the registry, family and weights read as `undefined`, so the result is not the default font |
| Render.Indices | services/htmlGenerator.ts:835 | the dot indices are 0 .. n-1 in order |
| Render.RenderSlide | services/htmlGenerator.ts:824-833 | a slide shows its image's address and text verbatim |
| Render.TemplateParts | services/htmlGenerator.ts:849-1035 | exactly the thirteen union variants have a template, and a template alternates fixed texts and substitutions, beginning and ending with fixed text |
| Render.RenderChoice | services/htmlGenerator.ts:905-911 | a choice card holds its label, image address, image text and name verbatim |
| Render.RenderPoint | services/htmlGenerator.ts:924-930 | a selling point holds its icon, title and description verbatim |
| Render.RenderDetailItem | services/htmlGenerator.ts:939-947 | a detail item holds its label, title, text, image address and image text verbatim |
| Render.MainImageMarkup | services/htmlGenerator.ts:953 | a usage section's main image holds its address and text verbatim; without one the slot is empty |
| Render.RenderUsageItem | services/htmlGenerator.ts:960-966 | a usage item holds its emoji, title and description verbatim |
| Render.RenderInfoRow | services/htmlGenerator.ts:1003-1008 | a table row holds its key and value verbatim |
| Render.RenderNoticeItem | services/htmlGenerator.ts:1019 | a notice list item holds the notice verbatim |
| Render.RenderBlock | services/htmlGenerator.ts:849-1035 | rendering fails exactly for a block missing a nested field its template reads, and only for a variant whose template reads one; an unknown `type` renders as the fixed comment |
| Render.BlockIdentifier | services/htmlGenerator.ts:1062 | the identifier the error box shows is never empty, so the `'Unknown Block'` fallback is never reached |
| Render.FieldPositions | services/htmlGenerator.ts:849-1035 | each template substitutes the block's text fields at strictly increasing positions |
| Render.AllTemplatesAligned | services/htmlGenerator.ts:849-1035 | every variant's template substitutes each text field, and its joined list, at the positions named |
| Render.FieldsVerbatim | services/htmlGenerator.ts:849-1035 | every top-level text field of a renderable block appears in its markup verbatim, with nothing escaped |
| Render.FieldsInOrder | services/htmlGenerator.ts:849-1035 | the text fields appear in the markup in template order |
| Render.ListJoined | services/htmlGenerator.ts:871-880 | a block's list appears as one run: catch-phrase lines joined with `<br>`, other items joined with nothing |
| Render.ListPartPresent | services/htmlGenerator.ts:849-1035 | every item of the block's list appears in its markup |
| Render.ListPartsInOrder | services/htmlGenerator.ts:849-1035 | the list items appear in list order |
| Render.ChoiceFieldsVerbatim | services/htmlGenerator.ts:898-913 | every field of every choice card reaches the choice section's markup verbatim |
| Render.PointFieldsVerbatim | services/htmlGenerator.ts:915-932 | every field of every selling point reaches the points section's markup verbatim |
| Render.DetailItemFieldsVerbatim | services/htmlGenerator.ts:934-949 | every field of every detail item reaches the detail section's markup verbatim |
| Render.UsageItemFieldsVerbatim | services/htmlGenerator.ts:951-968 | every field of every usage item reaches the usage section's markup verbatim |
| Render.UsageMainImageVerbatim | services/htmlGenerator.ts:951-958 | a usage section's main image reaches its markup with address and text verbatim |
| Render.InfoRowFieldsVerbatim | services/htmlGenerator.ts:996-1011 | every key and value of the table reaches the info section's markup verbatim |
| Render.NoticeItemVerbatim | services/htmlGenerator.ts:1013-1021 | every notice reaches the notice section's markup verbatim |
| Render.RenderCarousel | services/htmlGenerator.ts:823-847 | the carousel names its id and shows the run of slides before the run of dots |
| Render.CarouselSlidesInOrder | services/htmlGenerator.ts:824-833 | the slides appear in the order of the images |
| Render.CarouselDot | services/htmlGenerator.ts:835 | each slide k has a dot carrying `data-index` k and the label `Go to slide k+1`, and only dot 0 starts active |
| Render.RenderDot | services/htmlGenerator.ts:835 | dot k's markup holds its `data-index` attribute and its `aria-label="Go to slide k+1"` |
| Render.StickerDiv | services/htmlGenerator.ts:824 | a sticker is written as `<div class="sticker top-right">`, its text, and `</div>` |
| Render.SlideSlots | services/htmlGenerator.ts:826-831 | the slide template shows both its container class and its sticker markup |
| Render.SlideSticker | services/htmlGenerator.ts:824-831 | a slide with a sticker has the `image-with-sticker` class and the sticker `div` with its text; a slide without one has both slots empty |
| Render.FullImageSticker | services/htmlGenerator.ts:862-868 | the same for a standalone image block: with a sticker its markup holds `image-with-sticker` and the sticker `div`, without one both slots are empty |
| Render.ErrorBoxesNameBlock | services/htmlGenerator.ts:1061-1080 | both error boxes show `ID: ` followed by the failed block's id |
| Compose.GenerateBody | services/htmlGenerator.ts:1037-1163 | the body is the container around the scanned content, followed by the carousel script |
| Compose.RunEnd | services/htmlGenerator.ts:1046-1051 | the run starting at a position ends at the first later block that is not an image, or at the end; every block inside it is an image |
| Compose.PlanFrom | services/htmlGenerator.ts:1042-1083 | the fragments of the remaining blocks are never more than those blocks, and there are none exactly when no block remains |
| Compose.Plan | services/htmlGenerator.ts:1037-1083 | a document has no more fragments than blocks, and none exactly when it has no blocks |
| Compose.ScanBlocks | services/htmlGenerator.ts:1037-1083 | the scan loop's output is the rendering of the fragment plan, fragment by fragment |
| Compose.EmitImageRun | services/htmlGenerator.ts:1045-1069 | at an image block, the run of images becomes the plan's next fragment: a carousel with the next number when the run has at least two images, otherwise a lone image |
| Compose.EmitBlock | services/htmlGenerator.ts:1069-1082 | any other block becomes its rendering, or the error box naming it when rendering throws |
| Compose.CollectImageRun | services/htmlGenerator.ts:1046-1051 | the inner loop stops at the end of the run of consecutive images and collects exactly that run |
| Compose.PlanFromCovers | services/htmlGenerator.ts:1037-1083 | the fragments from any position on cover the remaining blocks in order |
| Compose.CoversStep | services/htmlGenerator.ts:1037-1083 | a fragment covering one slice of the blocks, followed by fragments covering the rest, covers both in order |
| Compose.PlanCovers | services/htmlGenerator.ts:1037-1083 | every block lands in exactly one fragment, in document order: no block is dropped or duplicated |
| Compose.PlanFromRuns | services/htmlGenerator.ts:1045-1051 | each image fragment is a maximal run: no two image fragments are adjacent, the first fragment is an image fragment exactly when the first block is an image, and no standalone fragment holds an image block |
| Compose.PlanFromNumbering | services/htmlGenerator.ts:1053-1055 | each carousel is numbered by the count of carousels before it |
| Compose.CarouselIdsDistinct | services/htmlGenerator.ts:1053-1055 | carousels are numbered in increasing order and their id texts are pairwise distinct |
| Compose.CarouselIdTextInjective | services/htmlGenerator.ts:1054 | `carousel-n` determines n |
| Compose.LoneImageNeverFails | services/htmlGenerator.ts:1057-1068 | a lone image never takes the error branch |
| Compose.StandaloneMarkup | services/htmlGenerator.ts:1069-1082 | a block gets the error box exactly when its rendering throws, and its rendering otherwise |
| Compose.BodyFrame | services/htmlGenerator.ts:1163 | the body opens the container first and holds the content |
| Compose.ContentInOrder | services/htmlGenerator.ts:1037-1083 | each fragment's markup appears in the content, in plan order |
| Compose.BodyFragmentsInOrder | services/htmlGenerator.ts:1037-1163 | in the body, the fragments' markup appears in plan order |
| Assemble.GenerateHtml | services/htmlGenerator.ts:1166-1184 | a failed check gives its error; a passed check gives the document of the checked plan and the chosen font |
| Assemble.Checked | services/htmlGenerator.ts:1168-1172 | the check passes exactly for an object with a non-empty project, a non-empty description and present blocks, and it hands on those three members unchanged |
| Assemble.FailureMessages | services/htmlGenerator.ts:1170-1181 | a syntax error becomes `Invalid JSON format: ` plus the parser's message; a structural failure carries the fixed missing-member message |
| Assemble.FormatMessageRecoverable | services/htmlGenerator.ts:1179-1181 | the parser's message can be read back from the rethrown message |
| Assemble.HtmlDocument | services/htmlGenerator.ts:1177 | the document starts with the doctype and the Korean `html` element, and ends by closing that element |
| Assemble.DocumentOrder | services/htmlGenerator.ts:1177 | the document holds the head, and the body after it |
| Assemble.DocumentKeepsHead | services/htmlGenerator.ts:1177 | anything the head holds, the document holds |
| Assemble.DocumentKeepsBodyOrder | services/htmlGenerator.ts:1177 | anything the body holds in order, the document holds in the same order |
| Assemble.PageUsesPlanAndFont | services/htmlGenerator.ts:1174-1177 | a generated page carries the plan's title and links the selected font |
| Assemble.PageFragmentsInOrder | services/htmlGenerator.ts:1174-1177 | on a generated page, the body's fragments appear in plan order |
| CarouselBehaviour.NextIndex | services/htmlGenerator.ts:1120-1125 | the next button always lands on a slide |
| CarouselBehaviour.PrevIndex | services/htmlGenerator.ts:1127-1132 | the previous button always lands on a slide |
| CarouselBehaviour.NextPrevInverse | services/htmlGenerator.ts:1120-1132 | the two buttons undo each other on every slide |
| CarouselBehaviour.NextIndexCases | services/htmlGenerator.ts:1120-1125 | next moves one slide on, and wraps from the last slide to the first |
| CarouselBehaviour.PrevIndexCases | services/htmlGenerator.ts:1127-1132 | previous moves one slide back, and wraps from the first slide to the last |
| CarouselBehaviour.NextTimesIsModulo | services/htmlGenerator.ts:1120-1125 | k presses of next advance the index by k modulo the slide count |
| CarouselBehaviour.FullCycle | services/htmlGenerator.ts:1120-1125 | pressing next once per slide returns to the starting slide, and not earlier |
| CarouselBehaviour.MovedDots | services/htmlGenerator.ts:1111-1118 | after a move, the old slide's dot is cleared, the target's dot is set, and every other dot is unchanged |
| CarouselBehaviour.InitialDotsMatchMarkup | services/htmlGenerator.ts:835 | the script starts from the active flags the dots are rendered with |
| CarouselBehaviour.MarksOnlyCount | services/htmlGenerator.ts:1111-1118 | when only the current dot is marked, exactly one dot is active if the current slide has a dot, and none otherwise |
| CarouselBehaviour.Carousel.constructor | services/htmlGenerator.ts:1089-1101 | set-up shows slide 0, with the dots as rendered |
| CarouselBehaviour.Carousel.MoveToSlide | services/htmlGenerator.ts:1111-1118 | shows the target with the transition, moves the active mark, and makes the target current |
| CarouselBehaviour.Carousel.Move | services/htmlGenerator.ts:1111-1118 | a move to a slide, or to a dot, keeps exactly the current dot active, and slides with the transition |
| CarouselBehaviour.Carousel.Next | services/htmlGenerator.ts:1120-1125 | the next button makes the next index current with the transition, and keeps the state valid |
| CarouselBehaviour.Carousel.Prev | services/htmlGenerator.ts:1127-1132 | the previous button makes the previous index current with the transition, and keeps the state valid |
| CarouselBehaviour.Carousel.ClickDot | services/htmlGenerator.ts:1134-1138 | clicking dot k makes slide k current, with the transition, and its dot active |
| CarouselBehaviour.Carousel.Resize | services/htmlGenerator.ts:1140-1146 | with a measurable width, the slide is repositioned without animation; otherwise nothing changes |
| CarouselBehaviour.Carousel.OneActiveDot | services/htmlGenerator.ts:1111-1138 | in every reachable state, at most one dot is active, and exactly one when the current slide has a dot |
| CarouselBehaviour.Setup | services/htmlGenerator.ts:1089-1094 | a carousel is driven exactly when it has a track and at least one slide |
| FindReplace.Replaced | App.tsx:663-684 | scalars come back unchanged, arrays and objects keep their kind, an array keeps its length, and an object keeps its keys in order |
| FindReplace.ReplacedMember | App.tsx:674-680 | a member keeps its key, and an address member holding the old address now holds the new one |
| FindReplace.RecursiveFindAndReplace | App.tsx:663-684 | the copy made by the recursive walk is the replaced value |
| FindReplace.UnmentionedUnchanged | App.tsx:663-684 | a value where the old address never appears under an address key comes back unchanged |
| FindReplace.SameAddressUnchanged | App.tsx:663-684 | replacing an address by itself changes nothing |
| FindReplace.ReplacedForgetsOld | App.tsx:663-684 | after a swap to a different address, the old address appears under no address key |
| FindReplace.ReplaceIdempotent | App.tsx:663-684 | applying the same swap twice is the same as applying it once |
| Feedback.Enumerate | App.tsx:268-269 | each suggestion is tagged with its own position |
| Feedback.GroupIndex | App.tsx:270 | finds the group of a category, or reports that no group has that category |
| Feedback.InCategorySnoc | App.tsx:268-271 | adding one entry adds it to its own category and to no other |
| Feedback.ExactAfterPush | App.tsx:270 | pushing an entry onto its category's group keeps every group holding exactly its category's entries |
| Feedback.ExactAfterNew | App.tsx:270 | opening a group for a category no earlier entry has keeps every group holding exactly its category's entries |
| Feedback.PushOntoGroup | App.tsx:270 | pushing the next entry onto its category's group extends the grouping by that entry |
| Feedback.PushNewGroup | App.tsx:270 | opening a group for the first entry of a new category extends the grouping by that entry |
| Feedback.PushStep | App.tsx:268-271 | one round of the reduce extends the grouping of the entries seen by the next entry |
| Feedback.GroupsOf | App.tsx:267-271 | the reduce over the first n entries has at most n groups, and at least one once an entry has been seen |
| Feedback.GroupsOfIsGrouping | App.tsx:267-273 | after any number of rounds, the groups are the grouping of the entries seen so far |
| Feedback.GroupsOfStep | App.tsx:268-271 | one more round of the reduce keeps the groups the grouping of the entries seen, with each group opened before the new entry |
| Feedback.WholeListGrouped | App.tsx:267-273 | the reduce over the whole tagged list gives its grouping |
| Feedback.GroupFeedback | App.tsx:267-273 | the loop computes the reduce, and its result is the grouping: groups are in order of first appearance with distinct categories; each group is non-empty and holds exactly its category's suggestions in list order; every suggestion's category has a group (a missing list counts as empty) |
| Feedback.GroupsOfAsWritten | App.tsx:267-273 | the reduce as written throws at a category naming an `Object.prototype` member, and throws for no other reason |
| Feedback.AsWrittenAgrees | App.tsx:267-273 | the reduce as written succeeds exactly when no category names an `Object.prototype` member, and then equals the grouping |
| Feedback.ToStringCategoryThrows | App.tsx:270 | a suggestion in category `toString` makes the reduce as written throw, where the grouping holds it |
| Feedback.InCategoryMembers | App.tsx:267-273 | a category's entries are exactly the entries with that category |
| Feedback.InCategoryKeepsOrder | App.tsx:267-273 | a category's entries keep their original positions, in increasing order |
| Feedback.PlacedOnce | App.tsx:267-273 | every suggestion sits in exactly one group, the one for its category |
| Feedback.GroupsKeepPositions | App.tsx:267-273 | within a group, each entry's original index points back to that suggestion, and the indices increase |
| Feedback.MarkLoading | App.tsx:1082-1087 | a missing list stays missing; otherwise the entry becomes loading with its error cleared, and every other entry and field is unchanged |
| Feedback.MarkDone | App.tsx:1092-1097 | the entry becomes done with the image URL, and nothing else changes |
| Feedback.MarkFailed | App.tsx:1100-1105 | the entry becomes an error with the message, and nothing else changes |
| Feedback.ReplaceGeneratedImage | App.tsx:1141-1147 | only the entry's generated image is replaced |
| Feedback.GenerationSucceeds | App.tsx:1080-1097 | loading then success leaves the entry done, with the image and no error |
| Feedback.GenerationFails | App.tsx:1080-1105 | loading then failure leaves the entry in error with the message, and keeps any earlier image |
| Feedback.FilterOutIndex | App.tsx:1121 | filtering out a position removes exactly that entry and keeps the rest in order; an out-of-range position keeps everything |
| Feedback.RemoveSuggestion | App.tsx:1121 | the inserted suggestion leaves the list, the rest shift down one place, and a missing list becomes empty |
| ExportSlices.SliceHeight | App.tsx:961 | the slice height is positive: the chosen height when it is positive, 8000 otherwise |
| ExportSlices.PlanSlices | App.tsx:960-979 | the loop yields the slice plan: starting at the top, each slice `step` below the one before, each as tall as the step or the rest of the image, named `image_1.png` onwards, the last reaching the bottom, and none for an empty image |
| ExportSlices.EdgeToEdgeCovers | App.tsx:965-979 | slices lying edge to edge cover exactly the distance between their ends |
| ExportSlices.SlicesTileImage | App.tsx:960-979 | the export's slices tile the image from top to bottom, their heights add up to the image height, and none is empty or taller than the slice height |
| ExportSlices.SliceNamesDistinct | App.tsx:975 | different slices are saved under different file names |
| DataUrls.NextComma | App.tsx:1022 | finds the first comma at or after a position, or the end |
| DataUrls.CommaFields | App.tsx:1022 | the first two fields of `split(',')`: the text up to the first comma, and the next field when there is a comma |
| DataUrls.SemicolonAhead | App.tsx:1023 | finds the first `;` reachable without crossing a line terminator, and reports none when every `;` lies past one |
| DataUrls.LazyCapture | App.tsx:1023 | a capture of `:(.*?);` holds neither a `;` nor a line terminator, and a header without `:` gives none |
| DataUrls.LazyCaptureSkips | App.tsx:1023 | the lazy search passes over positions holding no `:` |
| DataUrls.DataUrlImage | App.tsx:1020-1026 | only `data:` URLs take this branch, and their payload is the second comma field |
| DataUrls.LineEnd | App.tsx:406 | finds the first line terminator at or after a position |
| DataUrls.LastWithin | App.tsx:406 | finds the last occurrence of a pattern inside a window, and reports none when there is none |
| DataUrls.GreedyCapture | App.tsx:406 | a capture of `data:(.*);base64,` holds no line terminator, and a URL without `data:` gives none |
| DataUrls.UploadedImage | App.tsx:405-407 | the upload keeps the second comma field as the payload |
| DataUrls.FieldsOfBase64Url | App.tsx:1022 | in a base64 data URL without further commas, the fields are the header and the payload |
| DataUrls.DataUrlRoundTrip | App.tsx:1020-1026 | a base64 data URL is read back as its own payload and media type, with `image/png` for an empty type |
| DataUrls.UrlStartsWithType | App.tsx:406 | a base64 data URL starts with `data:` and then its media type |
| DataUrls.MarkerIsLastOnLine | App.tsx:406 | in a base64 data URL whose type has no line terminator, the greedy `(.*)` stops at the URL's own `;base64,` |
| DataUrls.GreedyCaptureAt | App.tsx:406 | at a `data:` with a marker later on the same line, the capture runs up to the last such marker |
| DataUrls.UploadRoundTrip | App.tsx:405-407 | the upload dialog reads a base64 data URL back as its payload and media type, with `image/jpeg` for an empty type |
| DataUrls.DefaultsDiffer | App.tsx:406-407 | for the same URL without a media type, the two readers default differently: `image/png` versus `image/jpeg` |
| DataUrls.GeneratedImageReadBack | App.tsx:1093 | the URL built for a generated image reads back as its payload and `image/png` |
| EditorHistory.ApplyEdit | App.tsx:1062-1066 | without a plan nothing changes; otherwise the current plan becomes the snapshot, and the new plan and its JSON text are installed |
| EditorHistory.Undo | App.tsx:883-889 | with a snapshot, undo restores it with its JSON text and clears it; without one nothing changes |
| EditorHistory.UndoRevertsEdit | App.tsx:883-889 | undo right after an edit gives back the state before the edit, without the older snapshot |
| EditorHistory.UndoOnce | App.tsx:883-889 | a second undo does nothing |
| EditorHistory.ApplySuggestion | App.tsx:847-862 | without a plan nothing changes; otherwise the snapshot becomes the current plan, then a reply installs the edited plan and its text, while a thrown call leaves the plan and its text as they were |
| EditorHistory.InsertGeneratedImage | App.tsx:1111-1128 | without a plan, or when the image fails to load, nothing changes; otherwise it behaves as a suggestion, the snapshot saved before the AI call |
| EditorHistory.UndoAfterFailedSuggestion | App.tsx:852-855 | undo after a thrown AI edit keeps the shown plan and clears the snapshot, so a different older snapshot can no longer be restored |
| EditorHistory.StaysSynced | App.tsx:847-889 | edits, AI edits that succeed or throw, and undo keep the JSON text in step with the plan |
| AiText.CleanModelHtml | services/aiService.ts:97-105 | the cleaned reply is the reply's trim, without the leading html fence and the trailing fence, trimmed again, and it has no outer whitespace |
| Strings.Trim | services/aiService.ts:97 | the trim has no whitespace at either end, and is a slice of the text outside which everything is whitespace |
| AiText.Unfenced | services/aiService.ts:98-103 | without either fence the text is kept; with both, not overlapping, the text is the html fence, the result, and the closing fence; never longer than the text |
| AiText.CleanedReply | services/aiService.ts:97-105 | the cleaned reply has no outer whitespace and is never longer than the reply |
| AiText.UnfencedReplyIsTrimmed | services/aiService.ts:368-376 | a reply without fences comes back as its trim |
| AiText.CleanIgnoresOuterWhitespace | services/aiService.ts:97-105 | whitespace around the reply makes no difference |
| AiText.FencedReply | services/aiService.ts:97-105 | a reply wrapped in an html fence comes back as the trim of what the fence wraps |
| AiText.NoOpeningFenceKeepsStart | services/aiService.ts:98-100 | only a fence at the very start is removed |
| AiText.OpeningFenceDropped | services/aiService.ts:98-103 | an opening fence costs exactly its seven characters at the front, and the closing fence at most three more |
| AiText.FirstStyleSpan | services/aiService.ts:11 | the span the lazy pattern matches: the first `<style>`, then the first `</style>` after it, which ends inside the page |
| AiText.FirstStyleSpanUnique | services/aiService.ts:11 | the first style span, when there is one, is determined by the page |
| AiText.ElideStyle | services/aiService.ts:11 | a page without `<style>` is sent unchanged; a page that changes had its first style span replaced by the placeholder |
| AiText.ElisionReplacesFirstSpan | services/aiService.ts:11 | when any `<style>` is followed by a `</style>`, the first such span is replaced |
| AiText.ElisionKeepsLaterStyles | services/aiService.ts:11 | the text after the replaced span, including any later style elements, comes through unchanged |

## Left out

- `JSON.parse` is not modelled. `generateHtml`'s input is the result of parsing: a syntax error with its message, `null`, a non-object value, or an object with optional `project`, `description` and `blocks` members.
- The plan's members are typed as the source's interfaces declare them. A member of the wrong JSON type (a number for `project`, a string for `blocks`) is not modelled.
- A block missing a top-level string field is not modelled: JavaScript would splice the text `undefined` into its markup.
- A block missing a nested field its template reads is modelled as the `Malformed` variant, which makes `renderBlock` throw.
- The `NullRead` message is the wording one JavaScript engine uses. Other engines word it differently.
- `console.error`, the DOM, slide widths, transforms, `setTimeout` and the window's resize listener are left out. The carousel keeps only its index, its shown slide, its dot flags and whether the next move is animated.
- The style sheet and the script are fixed texts. Nothing is proved about their contents.
- The body's trailing script is stated as text; its behaviour is modelled separately, in `CarouselBehaviour`.
- The React components, the network, the model calls, `html2canvas`, the zip archive, `FileReader` and image loading are left out. Their results enter as parameters.
- `JSON.stringify(plan, null, 2)` is a parameter of `EditorHistory`. A plan is not converted into a `Json` value.
- In `FindReplace`, numbers are integers. JavaScript's floating-point numbers are not modelled.
- `FindReplace` does not model prototype members or non-plain objects (dates, class instances); a plan has neither.
- `ExportSlices.PlanSlices`: the heights are whole numbers. A fractional `splitHeight` or image height is not modelled.
- `ExportSlices.PlanSlices`: the canvas context is taken as always present. When `getContext('2d')` returns `null`, the source skips that slice's file, and the model does not.
- `Feedback.GroupFeedback`: groups are in order of first appearance. JavaScript objects list integer-like keys first, so a category such as `"1"` would be listed earlier; that key-order rule is not modelled.
- `Feedback.MarkLoading`, `Feedback.MarkDone`, `Feedback.MarkFailed`, `Feedback.ReplaceGeneratedImage`: these require the index to lie inside the list. JavaScript would extend the array with holes for an index past its end, and no caller passes one.
- The in-place image edit's AI call, and its address replacement on the typed plan, are joined only through `EditorHistory.ApplyEdit`'s `newPlan` parameter.
- `EditorHistory`: the error messages the AI edits set, and the busy flags, are left out. A thrown AI call is the `Threw` reply, and a failed image load is a parameter.
- `DataUrls` models only the text of a data URL. The canvas branch of `urlToBase64` for other URLs needs image loading and is left out.
- `AiText`: the prompts and the model calls around the two clean-ups are left out.

## Findings

| source | as written | input that shows it | evidently intended | confidence | as-written member | corrected member |
|---|---|---|---|---|---|---|
| services/htmlGenerator.ts:29 | `FONT_MAP[fontName]` also finds members inherited from `Object.prototype`, so the `\|\| FONT_MAP['Noto Sans KR']` fallback is skipped for such names | fontName `"toString"`: the URL family and weights become `undefined` | a name outside the registry falls back to `Noto Sans KR` | medium, not executed | Head.InheritedNameBypassesFallback | Head.UnknownFontFallsBack |
| App.tsx:270 | `(acc[c] = acc[c] \|\| []).push(...)` on a `{}` accumulator reads an inherited `Object.prototype` member for such a category, which is truthy and has no `push` | one suggestion with category `"toString"`: the reduce throws a TypeError and the panel fails to render | every category gets its own group | medium, not executed | Feedback.ToStringCategoryThrows | Feedback.GroupFeedback |
