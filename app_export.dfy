/**
 * The split-image export: the captured page, `totalHeight` pixels tall, is cut into
 * horizontal slices of at most the chosen height, saved as image_1.png, image_2.png, ...
 *
 * The capture, the canvases and the zip archive are not modelled; a slice is its file
 * name, its top offset and its height.
 */
module ExportSlices {
  import opened Strings

  /** The slice height used when no positive split height was chosen. */
  const DefaultSliceHeight: nat := 8000

  /** `splitHeight > 0 ? splitHeight : 8000` */
  function SliceHeight(splitHeight: int): (h: nat)
    ensures h > 0
    ensures splitHeight > 0 ==> h == splitHeight
    ensures splitHeight <= 0 ==> h == DefaultSliceHeight
  {
    if splitHeight > 0 then splitHeight else DefaultSliceHeight
  }

  datatype Slice = Slice(fileName: string, y: nat, height: nat)

  /** The name of the `i`-th file, counting from 1. */
  function SliceName(i: nat): string {
    "image_" + NatToString(i) + ".png"
  }

  function Min(a: int, b: int): int {
    if a <= b then a else b
  }

  /**
   * The slices the export loop produces for an image `total` pixels tall and slices of
   * height `step`: the first starts at the top, each starts `step` below the one before and
   * inside the image, each is as tall as `step` or as the rest of the image, whichever is
   * less, the files are numbered from 1, and the last reaches the bottom of the image.
   */
  predicate IsSlicePlan(slices: seq<Slice>, total: nat, step: nat) {
    && (slices == [] <==> total == 0)
    && (slices != [] ==> slices[0].y == 0)
    && (forall k | 0 <= k < |slices| - 1 :: slices[k + 1].y == slices[k].y + step)
    && (forall k | 0 <= k < |slices| ::
          slices[k].y < total && slices[k].height == Min(step, total - slices[k].y))
    && (forall k | 0 <= k < |slices| :: slices[k].fileName == SliceName(k + 1))
    && (slices != [] ==> slices[|slices| - 1].y + step >= total)
  }

  /** The slice loop of handleExportImage. */
  method PlanSlices(totalHeight: nat, splitHeight: int) returns (slices: seq<Slice>)
    ensures IsSlicePlan(slices, totalHeight, SliceHeight(splitHeight))
  {
    var sliceHeight := SliceHeight(splitHeight);
    var y: nat := 0;
    var i: nat := 1;
    slices := [];
    while y < totalHeight
      invariant i == |slices| + 1
      invariant slices == [] ==> y == 0
      invariant slices != [] ==> slices[0].y == 0 && y == slices[|slices| - 1].y + sliceHeight
      invariant forall k | 0 <= k < |slices| - 1 :: slices[k + 1].y == slices[k].y + sliceHeight
      invariant forall k | 0 <= k < |slices| ::
        slices[k].y < totalHeight && slices[k].height == Min(sliceHeight, totalHeight - slices[k].y)
      invariant forall k | 0 <= k < |slices| :: slices[k].fileName == SliceName(k + 1)
      decreases totalHeight - y
    {
      var height := Min(sliceHeight, totalHeight - y);
      slices := slices + [Slice("image_" + NatToString(i) + ".png", y, height)];
      y := y + sliceHeight;
      i := i + 1;
    }
  }

  /** The total height of a list of slices. */
  function Covered(slices: seq<Slice>): nat {
    if slices == [] then 0 else slices[0].height + Covered(slices[1..])
  }

  /** The slices lie edge to edge from `top` down to `bottom`. */
  predicate EdgeToEdge(slices: seq<Slice>, top: nat, bottom: nat) {
    && (slices == [] ==> top == bottom)
    && (slices != [] ==> slices[0].y == top && slices[|slices| - 1].y + slices[|slices| - 1].height == bottom)
    && (forall k | 0 <= k < |slices| - 1 :: slices[k + 1].y == slices[k].y + slices[k].height)
  }

  /** Slices lying edge to edge cover exactly the distance between their ends. */
  lemma {:induction false} EdgeToEdgeCovers(slices: seq<Slice>, top: nat, bottom: nat)
    requires EdgeToEdge(slices, top, bottom)
    ensures top <= bottom && Covered(slices) == bottom - top
    decreases |slices|
  {
    if slices != [] {
      var rest := slices[1..];
      var next := slices[0].y + slices[0].height;
      assert rest != [] ==> rest[0].y == next;
      assert EdgeToEdge(rest, next, bottom);
      EdgeToEdgeCovers(rest, next, bottom);
    }
  }

  /**
   * The slices of the export tile the image: they lie edge to edge from the top to the
   * bottom, so their heights add up to the image height, and none is empty or taller than
   * the slice height.
   */
  lemma SlicesTileImage(slices: seq<Slice>, total: nat, step: nat)
    requires step > 0
    requires IsSlicePlan(slices, total, step)
    ensures EdgeToEdge(slices, 0, total)
    ensures Covered(slices) == total
    ensures forall k | 0 <= k < |slices| :: 0 < slices[k].height <= step
  {
    forall k | 0 <= k < |slices| - 1
      ensures slices[k + 1].y == slices[k].y + slices[k].height
    {
      assert slices[k + 1].y < total;
    }
    EdgeToEdgeCovers(slices, 0, total);
  }

  /** Different slices are saved under different file names. */
  lemma SliceNamesDistinct(i: nat, j: nat)
    ensures SliceName(i) == SliceName(j) ==> i == j
  {
    var prefix := "image_";
    if SliceName(i) == SliceName(j) {
      var a, b := SliceName(i), SliceName(j);
      assert |NatToString(i)| == |NatToString(j)|;
      assert NatToString(i) == a[|prefix|..|a| - 4];
      assert NatToString(j) == b[|prefix|..|b| - 4];
      NatToStringInjective(i, j);
    }
  }
}
