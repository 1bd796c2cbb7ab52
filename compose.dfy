/**
 * Body generation (generateBody): the scan that turns the block list into page fragments.
 * A maximal run of two or more consecutive `full_image` blocks becomes one carousel,
 * numbered `carousel-0`, `carousel-1`, ... in document order; a run of one image stays a
 * plain image; every other block is rendered on its own. A block whose rendering throws
 * is replaced by an error box naming it, and the scan goes on.
 *
 * `Plan` is the specification of the scan; `GenerateBody` is the scan itself, proved to
 * produce the markup of `Plan`.
 */
module Compose {
  import opened Results
  import opened Strings
  import opened Blocks
  import opened Render
  import BodyScript

  /** One unit of the page body, in document order. */
  datatype Fragment =
    | Carousel(carouselId: nat, images: seq<ImageBlock>)
    | LoneImage(image: ImageBlock)
    | Standalone(block: Block)
  {
    predicate IsImage() {
      Carousel? || LoneImage?
    }

    /** The blocks the fragment stands for, in order. */
    function Covers(): seq<Block> {
      match this
      case Carousel(_, images) => images
      case LoneImage(image) => [image]
      case Standalone(block) => [block]
    }
  }

  /** The end of the run of image blocks that starts at `i`: the first non-image index at or after `i`. */
  function RunEnd(blocks: seq<Block>, i: nat): (j: nat)
    requires i <= |blocks|
    ensures i <= j <= |blocks|
    ensures forall k | i <= k < j :: blocks[k].FullImage?
    ensures j == |blocks| || !blocks[j].FullImage?
    decreases |blocks| - i
  {
    if i == |blocks| || !blocks[i].FullImage? then i else RunEnd(blocks, i + 1)
  }

  /** The image blocks `blocks[i..j]`, typed as images. */
  function ImageRun(blocks: seq<Block>, i: nat, j: nat): (run: seq<ImageBlock>)
    requires i <= j <= |blocks|
    requires forall k | i <= k < j :: blocks[k].FullImage?
    ensures |run| == j - i
    ensures forall k | 0 <= k < |run| :: run[k] == blocks[i + k]
  {
    seq(j - i, k requires 0 <= k < j - i => blocks[i + k])
  }

  /**
   * The fragments of `blocks[i..]`, the next carousel being numbered `n`. A run of images
   * is taken whole (RunEnd), so that it is never split between two fragments.
   */
  function PlanFrom(blocks: seq<Block>, i: nat, n: nat): (r: seq<Fragment>)
    requires i <= |blocks|
    ensures |r| <= |blocks| - i
    ensures r == [] <==> i == |blocks|
    decreases |blocks| - i
  {
    if i == |blocks| then []
    else if blocks[i].FullImage? then
      var j := RunEnd(blocks, i);
      if j - i > 1 then [Carousel(n, ImageRun(blocks, i, j))] + PlanFrom(blocks, j, n + 1)
      else [LoneImage(blocks[i])] + PlanFrom(blocks, j, n)
    else [Standalone(blocks[i])] + PlanFrom(blocks, i + 1, n)
  }

  /** The fragments of the whole document, carousels numbered from 0. */
  function Plan(blocks: seq<Block>): (r: seq<Fragment>)
    ensures |r| <= |blocks|
    ensures r == [] <==> blocks == []
  {
    PlanFrom(blocks, 0, 0)
  }

  /** The id attribute of carousel `n`. */
  function CarouselIdText(n: nat): string {
    "carousel-" + NatToString(n)
  }

  /**
   * The markup of one fragment. A failed rendering is caught and replaced by the error box
   * naming the block; for a lone image that branch cannot be taken (see LoneImageNeverFails).
   */
  function RenderFragment(f: Fragment): string {
    match f
    case Carousel(n, images) => RenderCarousel(images, CarouselIdText(n))
    case LoneImage(image) =>
      (match RenderBlock(image)
       case Ok(html) => html
       case Err(_) => ImageErrorBox(BlockIdentifier(image.block_id)))
    case Standalone(block) =>
      (match RenderBlock(block)
       case Ok(html) => html
       case Err(_) => BlockErrorBox(BlockIdentifier(block.block_id)))
  }

  /** The fragments' markup, concatenated in order. */
  function RenderAll(fs: seq<Fragment>): string {
    Join(Map(fs, RenderFragment), "")
  }

  const BodyOpen: string := "<body><div class=\"container\">"

  /** The container's close, then the carousel script, then the body's close. */
  const BodyClose: string := "</div>" + BodyScript.CarouselScript + "</body>"

  /** The body around a given content. */
  function BodyAround(content: string): string {
    BodyOpen + content + BodyClose
  }

  /** The body: the container with the content of the plan's fragments, then the carousel script. */
  function BodyMarkup(blocks: seq<Block>): string {
    BodyAround(RenderAll(Plan(blocks)))
  }

  // ---------------------------------------------------------------------------
  // The scan

  /** generateBody: the container around the scanned content, then the carousel script. */
  method GenerateBody(blocks: seq<Block>) returns (body: string)
    ensures body == BodyMarkup(blocks)
  {
    var bodyContent := ScanBlocks(blocks);
    body := BodyOpen + bodyContent + BodyClose;
  }

  /** The scan over the blocks, one fragment per round. */
  method ScanBlocks(blocks: seq<Block>) returns (bodyContent: string)
    ensures bodyContent == RenderAll(Plan(blocks))
  {
    ImageTestIsVariant();
    bodyContent := "";
    var i := 0;
    var carouselCount := 0;
    while i < |blocks|
      invariant 0 <= i <= |blocks|
      invariant bodyContent + RenderAll(PlanFrom(blocks, i, carouselCount)) == RenderAll(Plan(blocks))
      decreases |blocks| - i
    {
      var block := blocks[i];
      ghost var rest := RenderAll(PlanFrom(blocks, i, carouselCount));
      var html;
      if block.Type() == "full_image" {
        html, i, carouselCount := EmitImageRun(blocks, i, carouselCount);
      } else {
        html := EmitBlock(blocks, i, carouselCount);
        i := i + 1;
      }
      ConcatAssociative(bodyContent, html, RenderAll(PlanFrom(blocks, i, carouselCount)));
      bodyContent := bodyContent + html;
    }
    assert RenderAll(PlanFrom(blocks, i, carouselCount)) == "";
  }

  /**
   * The round at an image block: the run of images starting there becomes a carousel with
   * the next id when it holds two or more images, and is rendered as a plain image otherwise.
   * The markup is that of the next fragment of the plan.
   */
  method EmitImageRun(blocks: seq<Block>, i: nat, carouselCount: nat) returns (html: string, next: nat, nextCount: nat)
    requires i < |blocks| && blocks[i].FullImage?
    ensures i < next <= |blocks|
    ensures RenderAll(PlanFrom(blocks, i, carouselCount)) == html + RenderAll(PlanFrom(blocks, next, nextCount))
  {
    var imageGroup;
    imageGroup, next := CollectImageRun(blocks, i);
    ghost var fragment: Fragment;
    if |imageGroup| > 1 {
      var carouselId := CarouselIdText(carouselCount);
      nextCount := carouselCount + 1;
      fragment := Carousel(carouselCount, imageGroup);
      html := RenderCarousel(imageGroup, carouselId);
    } else {
      var image := imageGroup[0];
      nextCount := carouselCount;
      fragment := LoneImage(image);
      var rendered := RenderBlock(image);
      if rendered.Ok? {
        html := rendered.value;
      } else {
        var blockIdentifier := BlockIdentifier(image.block_id);
        html := ImageErrorBox(blockIdentifier);
      }
    }
    assert PlanFrom(blocks, i, carouselCount) == [fragment] + PlanFrom(blocks, next, nextCount);
    assert html == RenderFragment(fragment);
    MapJoinCons(fragment, PlanFrom(blocks, next, nextCount), RenderFragment);
  }

  /**
   * The round at any other block: its rendering, or the error box naming it when the
   * rendering throws; the carousel count is unchanged.
   */
  method EmitBlock(blocks: seq<Block>, i: nat, carouselCount: nat) returns (html: string)
    requires i < |blocks| && !blocks[i].FullImage?
    ensures RenderAll(PlanFrom(blocks, i, carouselCount)) == html + RenderAll(PlanFrom(blocks, i + 1, carouselCount))
  {
    var block := blocks[i];
    var rendered := RenderBlock(block);
    if rendered.Ok? {
      html := rendered.value;
    } else {
      var blockIdentifier := BlockIdentifier(block.block_id);
      html := BlockErrorBox(blockIdentifier);
    }
    assert html == RenderFragment(Standalone(block));
    MapJoinCons(Standalone(block), PlanFrom(blocks, i + 1, carouselCount), RenderFragment);
  }

  /** The inner loop of the scan: collects the consecutive image blocks from `start` on. */
  method CollectImageRun(blocks: seq<Block>, start: nat) returns (imageGroup: seq<ImageBlock>, i: nat)
    requires start <= |blocks|
    ensures i == RunEnd(blocks, start)
    ensures imageGroup == ImageRun(blocks, start, i)
  {
    ImageTestIsVariant();
    imageGroup := [];
    i := start;
    while i < |blocks| && blocks[i].Type() == "full_image"
      invariant start <= i <= |blocks|
      invariant forall k | start <= k < i :: blocks[k].FullImage?
      invariant imageGroup == ImageRun(blocks, start, i)
      decreases |blocks| - i
    {
      imageGroup := imageGroup + [blocks[i]];
      i := i + 1;
    }
  }

  // ---------------------------------------------------------------------------
  // Helpers

  /** The scan's test `type === 'full_image'` picks out exactly the image variant. */
  lemma ImageTestIsVariant()
    ensures forall b: Block :: b.Type() == "full_image" <==> b.FullImage?
  {
    forall b: Block ensures b.Type() == "full_image" <==> b.FullImage? {
      FullImageTypeIff(b);
    }
  }


  // ---------------------------------------------------------------------------
  // What the plan promises

  /** The blocks the fragments stand for, concatenated in order. */
  function Flatten(fs: seq<Fragment>): seq<Block> {
    if fs == [] then [] else fs[0].Covers() + Flatten(fs[1..])
  }

  /** The number of carousels among the fragments. */
  function CarouselCount(fs: seq<Fragment>): nat {
    if fs == [] then 0 else (if fs[0].Carousel? then 1 else 0) + CarouselCount(fs[1..])
  }

  /** The image run typed as images is the slice of the blocks it was taken from. */
  lemma ImageRunIsSlice(blocks: seq<Block>, i: nat, j: nat)
    requires i <= j <= |blocks|
    requires forall k | i <= k < j :: blocks[k].FullImage?
    ensures ImageRun(blocks, i, j) == blocks[i..j]
  {
  }

  /** Flattening peels off the first fragment's blocks. */
  lemma FlattenCons(f: Fragment, rest: seq<Fragment>)
    ensures Flatten([f] + rest) == f.Covers() + Flatten(rest)
  {
    assert ([f] + rest)[1..] == rest;
  }

  /** A fragment covering `blocks[i..j]` in front of fragments covering `blocks[j..]` covers `blocks[i..]`. */
  lemma CoversStep(blocks: seq<Block>, i: nat, j: nat, f: Fragment, rest: seq<Fragment>)
    requires i <= j <= |blocks|
    requires f.Covers() == blocks[i..j] && Flatten(rest) == blocks[j..]
    ensures Flatten([f] + rest) == blocks[i..]
  {
    FlattenCons(f, rest);
    assert blocks[i..] == blocks[i..j] + blocks[j..];
  }

  /** The plan drops no block, duplicates none and keeps their order. */
  lemma {:induction false} PlanFromCovers(blocks: seq<Block>, i: nat, n: nat)
    requires i <= |blocks|
    ensures Flatten(PlanFrom(blocks, i, n)) == blocks[i..]
    decreases |blocks| - i
  {
    if i < |blocks| {
      if blocks[i].FullImage? {
        var j := RunEnd(blocks, i);
        ImageRunIsSlice(blocks, i, j);
        if j - i > 1 {
          PlanFromCovers(blocks, j, n + 1);
          CoversStep(blocks, i, j, Carousel(n, ImageRun(blocks, i, j)), PlanFrom(blocks, j, n + 1));
        } else {
          assert blocks[i..j] == [blocks[i]];
          PlanFromCovers(blocks, j, n);
          CoversStep(blocks, i, j, LoneImage(blocks[i]), PlanFrom(blocks, j, n));
        }
      } else {
        assert blocks[i..i + 1] == [blocks[i]];
        PlanFromCovers(blocks, i + 1, n);
        CoversStep(blocks, i, i + 1, Standalone(blocks[i]), PlanFrom(blocks, i + 1, n));
      }
    }
  }

  /** Every block of the document lands in exactly one fragment, in document order. */
  lemma PlanCovers(blocks: seq<Block>)
    ensures Flatten(Plan(blocks)) == blocks
  {
    PlanFromCovers(blocks, 0, 0);
  }

  /**
   * A carousel gathers at least two images, and a fragment of images is never followed by
   * another: each run of consecutive images is taken whole.
   */
  lemma {:induction false} PlanFromRuns(blocks: seq<Block>, i: nat, n: nat)
    requires i <= |blocks|
    ensures forall p | 0 <= p < |PlanFrom(blocks, i, n)| ::
      PlanFrom(blocks, i, n)[p].Carousel? ==> |PlanFrom(blocks, i, n)[p].images| >= 2
    ensures forall p | 0 <= p < |PlanFrom(blocks, i, n)| - 1 ::
      !(PlanFrom(blocks, i, n)[p].IsImage() && PlanFrom(blocks, i, n)[p + 1].IsImage())
    ensures |PlanFrom(blocks, i, n)| > 0 ==> (PlanFrom(blocks, i, n)[0].IsImage() <==> blocks[i].FullImage?)
    ensures forall p | 0 <= p < |PlanFrom(blocks, i, n)| ::
      PlanFrom(blocks, i, n)[p].Standalone? ==> !PlanFrom(blocks, i, n)[p].block.FullImage?
    decreases |blocks| - i
  {
    if i < |blocks| {
      var fs := PlanFrom(blocks, i, n);
      var j := if blocks[i].FullImage? then RunEnd(blocks, i) else i + 1;
      var m := if blocks[i].FullImage? && j - i > 1 then n + 1 else n;
      PlanFromRuns(blocks, j, m);
      var rest := PlanFrom(blocks, j, m);
      assert fs == [fs[0]] + rest;
      forall p | 0 <= p < |fs| - 1
        ensures !(fs[p].IsImage() && fs[p + 1].IsImage())
      {
        if p > 0 {
          assert fs[p] == rest[p - 1] && fs[p + 1] == rest[p];
        }
      }
      forall p | 0 <= p < |fs| && fs[p].Standalone?
        ensures !fs[p].block.FullImage?
      {
        if p > 0 {
          assert fs[p] == rest[p - 1];
        }
      }
    }
  }

  /** The carousels are numbered in document order, from the count the scan starts at. */
  lemma {:induction false} PlanFromNumbering(blocks: seq<Block>, i: nat, n: nat)
    requires i <= |blocks|
    ensures forall p | 0 <= p < |PlanFrom(blocks, i, n)| :: PlanFrom(blocks, i, n)[p].Carousel? ==>
      PlanFrom(blocks, i, n)[p].carouselId == n + CarouselCount(PlanFrom(blocks, i, n)[..p])
    decreases |blocks| - i
  {
    if i < |blocks| {
      var fs := PlanFrom(blocks, i, n);
      var j := if blocks[i].FullImage? then RunEnd(blocks, i) else i + 1;
      var m := if blocks[i].FullImage? && j - i > 1 then n + 1 else n;
      PlanFromNumbering(blocks, j, m);
      var rest := PlanFrom(blocks, j, m);
      assert fs == [fs[0]] + rest;
      assert m == n + CarouselCount(fs[..1]);
      forall p | 0 < p < |fs| && fs[p].Carousel?
        ensures fs[p].carouselId == n + CarouselCount(fs[..p])
      {
        assert fs[p] == rest[p - 1];
        assert fs[..p][1..] == rest[..p - 1];
      }
    }
  }

  /**
   * The carousels of a document are numbered 0, 1, 2, ... in order, so no two share an
   * id and no two share the id text `carousel-<n>` the script looks them up by.
   */
  lemma CarouselIdsDistinct(blocks: seq<Block>, p: nat, q: nat)
    requires p < q < |Plan(blocks)|
    requires Plan(blocks)[p].Carousel? && Plan(blocks)[q].Carousel?
    ensures Plan(blocks)[p].carouselId < Plan(blocks)[q].carouselId
    ensures CarouselIdText(Plan(blocks)[p].carouselId) != CarouselIdText(Plan(blocks)[q].carouselId)
  {
    var fs := Plan(blocks);
    PlanFromNumbering(blocks, 0, 0);
    CarouselCountGrows(fs[..q], p);
    assert fs[..q][..p] == fs[..p];
    CarouselIdTextInjective(fs[p].carouselId, fs[q].carouselId);
  }

  /** Distinct carousel numbers give distinct id texts. */
  lemma CarouselIdTextInjective(a: nat, b: nat)
    ensures CarouselIdText(a) == CarouselIdText(b) ==> a == b
  {
    if CarouselIdText(a) == CarouselIdText(b) {
      assert NatToString(a) == CarouselIdText(a)[9..];
      assert NatToString(b) == CarouselIdText(b)[9..];
      NatToStringInjective(a, b);
    }
  }

  /** A carousel at position `p` adds one to the count of every longer prefix. */
  lemma {:induction false} CarouselCountGrows(fs: seq<Fragment>, p: nat)
    requires p < |fs| && fs[p].Carousel?
    ensures CarouselCount(fs[..p]) < CarouselCount(fs)
  {
    if p == 0 {
    } else {
      CarouselCountGrows(fs[1..], p - 1);
      assert fs[..p][1..] == fs[1..][..p - 1];
    }
  }

  /** A lone image never takes the error branch: its rendering cannot throw. */
  lemma LoneImageNeverFails(image: ImageBlock)
    ensures RenderBlock(image).Ok?
    ensures RenderFragment(LoneImage(image)) == RenderBlock(image).value
  {
  }

  /** A block's error box replaces exactly the blocks whose rendering throws. */
  lemma StandaloneMarkup(block: Block)
    ensures block.Malformed? ==> RenderFragment(Standalone(block)) == BlockErrorBox("ID: " + block.block_id)
    ensures !block.Malformed? ==> RenderFragment(Standalone(block)) == RenderBlock(block).value
  {
  }

  /** The body opens the container first and holds the content. */
  lemma BodyFrame(content: string)
    ensures StartsWith(BodyAround(content), BodyOpen)
    ensures Contains(BodyAround(content), content)
  {
    FramedStart(BodyOpen, content, BodyClose);
    ContainsMiddle(BodyOpen, content, BodyClose);
  }

  /** Each fragment's markup appears in the content, and fragments appear in plan order. */
  lemma ContentInOrder(fs: seq<Fragment>, j: nat, k: nat)
    requires j < k < |fs|
    ensures Contains(RenderAll(fs), RenderFragment(fs[j]))
    ensures Contains(RenderAll(fs), RenderFragment(fs[k]))
    ensures Precedes(RenderAll(fs), RenderFragment(fs[j]), RenderFragment(fs[k]))
  {
    var parts := Map(fs, RenderFragment);
    JoinHasPart(parts, "", j);
    JoinHasPart(parts, "", k);
    JoinInOrder(parts, "", j, k);
  }

  /** What the content holds in order, the body holds in the same order. */
  lemma BodyKeepsOrder(content: string, x: string, y: string)
    requires Precedes(content, x, y)
    ensures Precedes(BodyAround(content), x, y)
  {
    PrecedesWithin(BodyOpen, content, BodyClose, x, y);
  }

  /** In the body, the fragments' markup appears in the order of the plan. */
  lemma BodyFragmentsInOrder(blocks: seq<Block>, j: nat, k: nat)
    requires j < k < |Plan(blocks)|
    ensures Precedes(BodyMarkup(blocks), RenderFragment(Plan(blocks)[j]), RenderFragment(Plan(blocks)[k]))
  {
    ContentInOrder(Plan(blocks), j, k);
    BodyKeepsOrder(RenderAll(Plan(blocks)), RenderFragment(Plan(blocks)[j]), RenderFragment(Plan(blocks)[k]));
  }
}
