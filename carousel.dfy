/**
 * The behaviour of the script the body ends with: for every carousel on the page it keeps
 * the index of the slide on show, moves to the next or the previous slide (wrapping round
 * at either end), jumps to the slide of a clicked dot, and keeps exactly the dot of the
 * slide on show marked active.
 *
 * The slide width, the CSS transition and the DOM are not modelled: the track's
 * `translateX` offset is kept as the index of the slide it shows (`shownIndex`) and the
 * transition as a flag (`animated`: the last placement of the track used the transition).
 */
module CarouselBehaviour {
  import opened Results
  import Render

  /** The next button's index: one on, wrapping from the last slide to the first. */
  function NextIndex(i: nat, n: nat): (j: nat)
    requires n > 0
    ensures j < n
  {
    (i + 1) % n
  }

  /** The previous button's index: one back, wrapping from the first slide to the last. */
  function PrevIndex(i: nat, n: nat): (j: nat)
    requires n > 0
    ensures j < n
  {
    (i - 1 + n) % n
  }

  /** The two buttons undo each other on every slide index. */
  lemma NextPrevInverse(i: nat, n: nat)
    requires i < n
    ensures PrevIndex(NextIndex(i, n), n) == i
    ensures NextIndex(PrevIndex(i, n), n) == i
  {
    NextIndexCases(i, n);
    PrevIndexCases(i, n);
    NextIndexCases(PrevIndex(i, n), n);
    PrevIndexCases(NextIndex(i, n), n);
  }

  /** On a slide index the next button moves one on, except from the last slide to the first. */
  lemma NextIndexCases(i: nat, n: nat)
    requires i < n
    ensures NextIndex(i, n) == if i + 1 < n then i + 1 else 0
  {
    if i + 1 < n {
      ModSmall(i + 1, n);
    } else {
      ModUnique(i + 1, n, 1, 0);
    }
  }

  /** On a slide index the previous button moves one back, except from the first slide to the last. */
  lemma PrevIndexCases(i: nat, n: nat)
    requires i < n
    ensures PrevIndex(i, n) == if i > 0 then i - 1 else n - 1
  {
    if i > 0 {
      ModUnique(i - 1 + n, n, 1, i - 1);
    } else {
      ModSmall(n - 1, n);
    }
  }

  /** The index after `k` presses of the next button. */
  function NextTimes(i: nat, n: nat, k: nat): (j: nat)
    requires n > 0
    ensures j < n || (k == 0 && j == i)
  {
    if k == 0 then i else NextIndex(NextTimes(i, n, k - 1), n)
  }

  /** `k` presses of the next button advance the index by `k` modulo the slide count. */
  lemma {:induction false} NextTimesIsModulo(i: nat, n: nat, k: nat)
    requires i < n
    ensures NextTimes(i, n, k) == (i + k) % n
  {
    if k > 0 {
      NextTimesIsModulo(i, n, k - 1);
      ModuloStep(i + k - 1, n);
    }
  }

  /** Adding one before or after reducing modulo `n` gives the same residue. */
  lemma ModuloStep(a: nat, n: nat)
    requires n > 0
    ensures (a % n + 1) % n == (a + 1) % n
  {
    var q, r := a / n, a % n;
    if r + 1 < n {
      ModSmall(r + 1, n);
      ModUnique(a + 1, n, q, r + 1);
    } else {
      ModUnique(r + 1, n, 1, 0);
      assert a + 1 == (q + 1) * n;
      ModUnique(a + 1, n, q + 1, 0);
    }
  }

  /** Pressing the next button once per slide comes back to the starting slide, and not before. */
  lemma FullCycle(i: nat, n: nat)
    requires i < n
    ensures NextTimes(i, n, n) == i
    ensures forall k | 0 < k < n :: NextTimes(i, n, k) != i
  {
    NextTimesIsModulo(i, n, n);
    ModUnique(i + n, n, 1, i);
    forall k | 0 < k < n
      ensures NextTimes(i, n, k) != i
    {
      NextTimesIsModulo(i, n, k);
      if i + k < n {
        ModSmall(i + k, n);
      } else {
        ModUnique(i + k, n, 1, i + k - n);
      }
    }
  }

  // Division with remainder, spelt out for the verifier.

  lemma MulAtLeast(d: int, n: nat)
    requires d >= 1
    ensures d * n >= n
  {
    assert d * n == (d - 1) * n + n;
  }

  /** A quotient and remainder that recompose `a` are the ones `/` and `%` give. */
  lemma ModUnique(a: int, n: nat, q: int, r: int)
    requires n > 0 && 0 <= r < n && a == q * n + r
    ensures a % n == r && a / n == q
  {
    var q', r' := a / n, a % n;
    assert (q - q') * n == r' - r;
    if q > q' {
      MulAtLeast(q - q', n);
    } else if q < q' {
      MulAtLeast(q' - q, n);
    }
  }

  lemma ModSmall(a: nat, n: nat)
    requires a < n
    ensures a % n == a
  {
    ModUnique(a, n, 0, a);
  }

  /** The dot flags after moving from slide `from` to slide `to`: `from`'s mark moves to `to`. */
  function MovedDots(dots: seq<bool>, from: nat, to: nat): (r: seq<bool>)
    ensures |r| == |dots|
    ensures forall i | 0 <= i < |r| :: r[i] == (i == to || (i != from && dots[i]))
  {
    seq(|dots|, i requires 0 <= i < |dots| => i == to || (i != from && dots[i]))
  }

  /** The dot flags as the body's markup sets them: the first dot is active. */
  function InitialDots(dotCount: nat): (r: seq<bool>)
    ensures |r| == dotCount
  {
    seq(dotCount, i requires 0 <= i < dotCount => i == 0)
  }

  /** The initial flags are the ones the dots are rendered with. */
  lemma InitialDotsMatchMarkup(dotCount: nat)
    ensures forall i | 0 <= i < dotCount :: InitialDots(dotCount)[i] == Render.DotActive(i)
  {
  }

  /** Exactly the dot at `current` is marked, when there is one. */
  predicate MarksOnly(dots: seq<bool>, current: nat) {
    forall i | 0 <= i < |dots| :: dots[i] <==> i == current
  }

  /** The number of active dots. */
  function ActiveCount(dots: seq<bool>): nat {
    if dots == [] then 0 else (if dots[0] then 1 else 0) + ActiveCount(dots[1..])
  }

  /** Marking only `current` leaves exactly one active dot when `current` has a dot, else none. */
  lemma {:induction false} MarksOnlyCount(dots: seq<bool>, current: nat)
    requires MarksOnly(dots, current)
    ensures ActiveCount(dots) == if current < |dots| then 1 else 0
  {
    if dots != [] {
      if current == 0 {
        assert MarksOnly(dots[1..], |dots|) by {
          forall i | 0 <= i < |dots[1..]| ensures !dots[1..][i] {
            assert dots[1..][i] == dots[i + 1];
          }
        }
        MarksOnlyCount(dots[1..], |dots|);
      } else {
        assert MarksOnly(dots[1..], current - 1) by {
          forall i | 0 <= i < |dots[1..]| ensures dots[1..][i] <==> i == current - 1 {
            assert dots[1..][i] == dots[i + 1];
          }
        }
        MarksOnlyCount(dots[1..], current - 1);
      }
    }
  }

  /** One carousel as the script drives it. */
  class Carousel {
    const slideCount: nat
    var dots: seq<bool>
    var currentIndex: nat
    var shownIndex: nat
    var animated: bool

    /** The track shows the current slide and exactly its dot is active. */
    ghost predicate Valid()
      reads this
    {
      && slideCount > 0
      && (currentIndex < slideCount || currentIndex < |dots|)
      && shownIndex == currentIndex
      && MarksOnly(dots, currentIndex)
    }

    /** Set-up of a carousel with slides: slide 0 on show, dots as rendered. */
    constructor (slides: nat, dotCount: nat)
      requires slides > 0
      ensures Valid()
      ensures slideCount == slides && dots == InitialDots(dotCount)
      ensures currentIndex == 0 && shownIndex == 0
    {
      slideCount := slides;
      dots := InitialDots(dotCount);
      currentIndex := 0;
      shownIndex := 0;
      animated := false;
    }

    /** moveToSlide: show the target slide with the transition and move the active mark. */
    method MoveToSlide(targetIndex: nat)
      modifies this
      ensures shownIndex == targetIndex && animated
      ensures dots == MovedDots(old(dots), old(currentIndex), targetIndex)
      ensures currentIndex == targetIndex
    {
      shownIndex := targetIndex;
      animated := true;
      if |dots| > 0 {
        if currentIndex < |dots| {
          dots := dots[currentIndex := false];
        }
        if targetIndex < |dots| {
          dots := dots[targetIndex := true];
        }
      }
      currentIndex := targetIndex;
    }

    /** Moving keeps the state valid for any target that is a slide or has a dot. */
    method Move(targetIndex: nat)
      requires Valid()
      requires targetIndex < slideCount || targetIndex < |dots|
      modifies this
      ensures Valid()
      ensures currentIndex == targetIndex && dots == MovedDots(old(dots), old(currentIndex), targetIndex)
      ensures animated
    {
      MoveToSlide(targetIndex);
    }

    /** The next button. */
    method Next()
      requires Valid()
      modifies this
      ensures Valid()
      ensures currentIndex == NextIndex(old(currentIndex), slideCount)
      ensures animated
      ensures |dots| == old(|dots|)
    {
      var newIndex := (currentIndex + 1) % slideCount;
      Move(newIndex);
    }

    /** The previous button. */
    method Prev()
      requires Valid()
      modifies this
      ensures Valid()
      ensures currentIndex == PrevIndex(old(currentIndex), slideCount)
      ensures animated
      ensures |dots| == old(|dots|)
    {
      var newIndex := (currentIndex - 1 + slideCount) % slideCount;
      Move(newIndex);
    }

    /** A click on dot `index`. */
    method ClickDot(index: nat)
      requires Valid()
      requires index < |dots|
      modifies this
      ensures Valid()
      ensures |dots| == old(|dots|)
      ensures currentIndex == index && dots[index]
      ensures animated
    {
      Move(index);
    }

    /**
     * handleResize: once the first slide has a width, re-place the track on the current
     * slide without the transition; a zero width changes nothing.
     */
    method Resize(hasWidth: bool)
      requires Valid()
      modifies this
      ensures Valid()
      ensures hasWidth ==> !animated
      ensures !hasWidth ==> animated == old(animated)
      ensures currentIndex == old(currentIndex) && dots == old(dots) && shownIndex == old(shownIndex)
    {
      if hasWidth {
        shownIndex := currentIndex;
        animated := false;
      }
    }

    /** In a valid state at most one dot is active, and exactly one when the slide has a dot. */
    lemma OneActiveDot()
      requires Valid()
      ensures ActiveCount(dots) == if currentIndex < |dots| then 1 else 0
    {
      MarksOnlyCount(dots, currentIndex);
    }
  }

  /**
   * The set-up of one `.carousel-container`: nothing happens when it has no track or
   * the track has no slides; otherwise a carousel with slide 0 on show.
   */
  method Setup(hasTrack: bool, slides: nat, dotCount: nat) returns (c: Option<Carousel>)
    ensures c.None? <==> !hasTrack || slides == 0
    ensures c.Some? ==>
      && fresh(c.value) && c.value.Valid() && c.value.currentIndex == 0
      && c.value.slideCount == slides && c.value.dots == InitialDots(dotCount)
  {
    if !hasTrack || slides == 0 {
      return None;
    }
    var carousel := new Carousel(slides, dotCount);
    c := Some(carousel);
  }
}
