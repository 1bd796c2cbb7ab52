/**
 * The editor's AI feedback list: the suggestions the model returned, shown grouped by
 * category (the groupedFeedback reduce of the feedback panel), and the copy-and-update
 * edits the image-suggestion handlers make to the list.
 */
module Feedback {
  import opened Results
  import Head

  /** The generation state of an image suggestion ('idle', 'loading', 'done', 'error'). */
  datatype GenerationState = Idle | Loading | Done | Error

  /** A suggestion as the panel shows it; the optional members are None when absent. */
  datatype Suggestion = Suggestion(
    category: string,
    suggestion: string,
    generationState: Option<GenerationState>,
    generatedImage: Option<string>,
    generationError: Option<string>)

  /** A suggestion with its position in the feedback list (`{ ...item, originalIndex }`). */
  datatype IndexedSuggestion = IndexedSuggestion(item: Suggestion, originalIndex: nat)

  /** One member of the grouped record: a category and the suggestions pushed under it. */
  datatype Group = Group(category: string, items: seq<IndexedSuggestion>)

  /** The list the panel groups: `feedback || []`. */
  function Listed(feedback: Option<seq<Suggestion>>): seq<Suggestion> {
    if feedback.Some? then feedback.value else []
  }

  /** Every suggestion tagged with its position. */
  function Enumerate(list: seq<Suggestion>): (r: seq<IndexedSuggestion>)
    ensures |r| == |list|
    ensures forall i | 0 <= i < |r| :: r[i].item == list[i] && r[i].originalIndex == i
  {
    seq(|list|, i requires 0 <= i < |list| => IndexedSuggestion(list[i], i))
  }

  /** The entries of `xs` in category `c`, in the order of `xs`. */
  function InCategory(xs: seq<IndexedSuggestion>, c: string): seq<IndexedSuggestion>
    decreases |xs|
  {
    if xs == [] then []
    else InCategory(xs[..|xs| - 1], c) + (if xs[|xs| - 1].item.category == c then [xs[|xs| - 1]] else [])
  }

  /** The groups' categories, in group order. */
  function Categories(groups: seq<Group>): (r: seq<string>)
    ensures |r| == |groups| && forall j | 0 <= j < |groups| :: r[j] == groups[j].category
  {
    seq(|groups|, j requires 0 <= j < |groups| => groups[j].category)
  }

  /** No two groups share a category. */
  predicate DistinctCategories(groups: seq<Group>) {
    forall j, j' | 0 <= j < j' < |groups| :: groups[j].category != groups[j'].category
  }

  /** Each group holds exactly the entries of `xs` in its category, in the order of `xs`. */
  predicate GroupsExact(xs: seq<IndexedSuggestion>, groups: seq<Group>) {
    forall j | 0 <= j < |groups| :: groups[j].items == InCategory(xs, groups[j].category)
  }

  predicate GroupsNonEmpty(groups: seq<Group>) {
    forall j | 0 <= j < |groups| :: groups[j].items != []
  }

  /** Every entry's category has a group. */
  predicate AllCategoriesGrouped(xs: seq<IndexedSuggestion>, groups: seq<Group>) {
    forall i | 0 <= i < |xs| :: xs[i].item.category in Categories(groups)
  }

  /** The groups come in the order their categories first appear. */
  predicate FirstSeenOrder(groups: seq<Group>)
    requires GroupsNonEmpty(groups)
  {
    forall j, j' | 0 <= j < j' < |groups| :: groups[j].items[0].originalIndex < groups[j'].items[0].originalIndex
  }

  /**
   * `groups` is the grouping of the tagged list `xs`: one group per category, in the order
   * the categories first appear, each holding exactly the entries of its category.
   */
  predicate IsGrouping(xs: seq<IndexedSuggestion>, groups: seq<Group>) {
    && DistinctCategories(groups)
    && GroupsExact(xs, groups)
    && GroupsNonEmpty(groups)
    && AllCategoriesGrouped(xs, groups)
    && FirstSeenOrder(groups)
  }

  /** The position of category `c` among the groups, or |groups| when it has none yet. */
  function GroupIndex(groups: seq<Group>, c: string): (k: nat)
    ensures k <= |groups|
    ensures k < |groups| ==> groups[k].category == c
    ensures k == |groups| ==> c !in Categories(groups)
  {
    if groups == [] then 0
    else if groups[0].category == c then 0
    else
      assert Categories(groups) == [groups[0].category] + Categories(groups[1..]);
      1 + GroupIndex(groups[1..], c)
  }

  /** A category absent from `xs` has no entries. */
  lemma {:induction false} InCategoryAbsent(xs: seq<IndexedSuggestion>, c: string)
    requires forall i | 0 <= i < |xs| :: xs[i].item.category != c
    ensures InCategory(xs, c) == []
    decreases |xs|
  {
    if xs != [] {
      InCategoryAbsent(xs[..|xs| - 1], c);
    }
  }

  /** Adding one entry at the end adds it to its own category and to no other. */
  lemma InCategorySnoc(xs: seq<IndexedSuggestion>, x: IndexedSuggestion, c: string)
    ensures InCategory(xs + [x], c) == InCategory(xs, c) + (if x.item.category == c then [x] else [])
  {
    assert (xs + [x])[..|xs|] == xs;
  }

  /** Pushing an entry onto its category's group keeps every group exact. */
  lemma ExactAfterPush(xs: seq<IndexedSuggestion>, groups: seq<Group>, x: IndexedSuggestion, k: nat)
    requires GroupsExact(xs, groups)
    requires k < |groups| && groups[k].category == x.item.category
    requires DistinctCategories(groups)
    ensures GroupsExact(xs + [x], groups[k := Group(groups[k].category, groups[k].items + [x])])
  {
    var g := groups[k := Group(groups[k].category, groups[k].items + [x])];
    forall j | 0 <= j < |g|
      ensures g[j].items == InCategory(xs + [x], g[j].category)
    {
      InCategorySnoc(xs, x, groups[j].category);
    }
  }

  /** Opening a group for a category no earlier entry has keeps every group exact. */
  lemma ExactAfterNew(xs: seq<IndexedSuggestion>, groups: seq<Group>, x: IndexedSuggestion)
    requires GroupsExact(xs, groups)
    requires AllCategoriesGrouped(xs, groups)
    requires x.item.category !in Categories(groups)
    ensures GroupsExact(xs + [x], groups + [Group(x.item.category, [x])])
  {
    var g := groups + [Group(x.item.category, [x])];
    forall j | 0 <= j < |groups|
      ensures g[j].items == InCategory(xs + [x], g[j].category)
    {
      InCategorySnoc(xs, x, groups[j].category);
    }
    forall i | 0 <= i < |xs|
      ensures xs[i].item.category != x.item.category
    {
      assert xs[i].item.category in Categories(groups);
    }
    InCategoryAbsent(xs, x.item.category);
    InCategorySnoc(xs, x, x.item.category);
  }

  /** Pushing entry `index` onto the group of its category extends the grouping by that entry. */
  lemma PushOntoGroup(xs: seq<IndexedSuggestion>, index: nat, groups: seq<Group>, k: nat)
    requires index < |xs| && xs[index].originalIndex == index
    requires IsGrouping(xs[..index], groups)
    requires k < |groups| && groups[k].category == xs[index].item.category
    requires forall j | 0 <= j < |groups| :: groups[j].items[0].originalIndex < index
    ensures IsGrouping(xs[..index + 1], groups[k := Group(groups[k].category, groups[k].items + [xs[index]])])
    ensures var g := groups[k := Group(groups[k].category, groups[k].items + [xs[index]])];
      forall j | 0 <= j < |g| :: g[j].items[0].originalIndex < index + 1
  {
    var x := xs[index];
    var g := groups[k := Group(groups[k].category, groups[k].items + [x])];
    assert xs[..index + 1] == xs[..index] + [x];
    ExactAfterPush(xs[..index], groups, x, k);
    assert Categories(g) == Categories(groups);
    assert forall j | 0 <= j < |g| :: g[j].items[0] == groups[j].items[0];
  }

  /** Opening a group for entry `index`, the first of a new category, extends the grouping by it. */
  lemma PushNewGroup(xs: seq<IndexedSuggestion>, index: nat, groups: seq<Group>)
    requires index < |xs| && xs[index].originalIndex == index
    requires IsGrouping(xs[..index], groups)
    requires xs[index].item.category !in Categories(groups)
    requires forall j | 0 <= j < |groups| :: groups[j].items[0].originalIndex < index
    ensures IsGrouping(xs[..index + 1], groups + [Group(xs[index].item.category, [xs[index]])])
    ensures var g := groups + [Group(xs[index].item.category, [xs[index]])];
      forall j | 0 <= j < |g| :: g[j].items[0].originalIndex < index + 1
  {
    var x := xs[index];
    var g := groups + [Group(x.item.category, [x])];
    assert xs[..index + 1] == xs[..index] + [x];
    ExactAfterNew(xs[..index], groups, x);
    assert Categories(g) == Categories(groups) + [x.item.category];
  }

  /** One round of the reduce: `x` pushed onto its category's group, opened if it has none yet. */
  function Pushed(groups: seq<Group>, x: IndexedSuggestion): seq<Group> {
    var k := GroupIndex(groups, x.item.category);
    if k < |groups| then groups[k := Group(groups[k].category, groups[k].items + [x])]
    else groups + [Group(x.item.category, [x])]
  }

  /** One round of the reduce extends the grouping by the next entry. */
  lemma PushStep(xs: seq<IndexedSuggestion>, index: nat, groups: seq<Group>)
    requires index < |xs| && xs[index].originalIndex == index
    requires IsGrouping(xs[..index], groups)
    requires forall j | 0 <= j < |groups| :: groups[j].items[0].originalIndex < index
    ensures IsGrouping(xs[..index + 1], Pushed(groups, xs[index]))
    ensures forall j | 0 <= j < |Pushed(groups, xs[index])| :: Pushed(groups, xs[index])[j].items[0].originalIndex < index + 1
  {
    var k := GroupIndex(groups, xs[index].item.category);
    if k < |groups| {
      PushOntoGroup(xs, index, groups, k);
    } else {
      PushNewGroup(xs, index, groups);
    }
  }

  /** The reduce over the first `n` entries: the groups after `n` rounds. */
  function GroupsOf(xs: seq<IndexedSuggestion>, n: nat): (r: seq<Group>)
    requires n <= |xs|
    ensures |r| <= n
    ensures n > 0 ==> r != []
  {
    if n == 0 then [] else Pushed(GroupsOf(xs, n - 1), xs[n - 1])
  }

  /** After any number of rounds over a tagged list, the groups are the grouping of the entries seen. */
  lemma {:induction false} GroupsOfIsGrouping(xs: seq<IndexedSuggestion>, n: nat)
    requires n <= |xs|
    requires forall i | 0 <= i < |xs| :: xs[i].originalIndex == i
    ensures IsGrouping(xs[..n], GroupsOf(xs, n))
    ensures OpenedBefore(GroupsOf(xs, n), n)
  {
    if n > 0 {
      GroupsOfIsGrouping(xs, n - 1);
      GroupsOfStep(xs, n);
    }
  }

  /** Every group was opened by an entry before position `n`. */
  predicate OpenedBefore(groups: seq<Group>, n: nat) {
    forall j | 0 <= j < |groups| :: groups[j].items != [] && groups[j].items[0].originalIndex < n
  }

  /** One more round of the reduce keeps the groups the grouping of the entries seen. */
  lemma GroupsOfStep(xs: seq<IndexedSuggestion>, n: nat)
    requires 0 < n <= |xs| && xs[n - 1].originalIndex == n - 1
    requires IsGrouping(xs[..n - 1], GroupsOf(xs, n - 1))
    requires OpenedBefore(GroupsOf(xs, n - 1), n - 1)
    ensures IsGrouping(xs[..n], GroupsOf(xs, n))
    ensures OpenedBefore(GroupsOf(xs, n), n)
  {
    PushStep(xs, n - 1, GroupsOf(xs, n - 1));
  }

  /** The reduce over the whole tagged list gives its grouping. */
  lemma WholeListGrouped(list: seq<Suggestion>)
    ensures IsGrouping(Enumerate(list), GroupsOf(Enumerate(list), |list|))
  {
    var xs := Enumerate(list);
    GroupsOfIsGrouping(xs, |xs|);
    assert xs[..|xs|] == xs;
  }

  /** The exception the reduce as written throws (a TypeError in the source). */
  datatype GroupingFailure = PushOnInheritedMember(category: string)

  /**
   * The reduce as written, `(acc[c] = acc[c] || []).push(...)` on a `{}` accumulator: for a
   * category naming an Object.prototype member, `acc[c]` reads the inherited member, which
   * is truthy and has no `push`, so that round throws.
   */
  function GroupsOfAsWritten(xs: seq<IndexedSuggestion>, n: nat): (r: Result<seq<Group>, GroupingFailure>)
    requires n <= |xs|
    ensures r.Err? ==> r.error.category in Head.ObjectPrototypeMembers
  {
    if n == 0 then Ok([])
    else
      match GroupsOfAsWritten(xs, n - 1)
      case Err(e) => Err(e)
      case Ok(groups) =>
        if xs[n - 1].item.category in Head.ObjectPrototypeMembers then Err(PushOnInheritedMember(xs[n - 1].item.category))
        else Ok(Pushed(groups, xs[n - 1]))
  }

  /**
   * The reduce as written succeeds exactly when no category seen names an Object.prototype
   * member, and then it gives the grouping.
   */
  lemma {:induction false} AsWrittenAgrees(xs: seq<IndexedSuggestion>, n: nat)
    requires n <= |xs|
    ensures GroupsOfAsWritten(xs, n).Ok? <==> forall i | 0 <= i < n :: xs[i].item.category !in Head.ObjectPrototypeMembers
    ensures GroupsOfAsWritten(xs, n).Ok? ==> GroupsOfAsWritten(xs, n).value == GroupsOf(xs, n)
  {
    if n > 0 {
      AsWrittenAgrees(xs, n - 1);
    }
  }

  /** One suggestion in category "toString" makes the reduce as written throw, where the grouping holds it. */
  lemma ToStringCategoryThrows(s: Suggestion)
    requires s.category == "toString"
    ensures GroupsOfAsWritten(Enumerate([s]), 1) == Err(PushOnInheritedMember("toString"))
    ensures GroupsOf(Enumerate([s]), 1) == [Group("toString", [IndexedSuggestion(s, 0)])]
  {
    assert "toString" in Head.ObjectPrototypeMembers;
  }

  /**
   * The groupedFeedback reduce: walk the list, tag each suggestion with its index and push
   * it onto the array of its category, creating that array on the category's first use.
   */
  method GroupFeedback(feedback: Option<seq<Suggestion>>) returns (groups: seq<Group>)
    ensures groups == GroupsOf(Enumerate(Listed(feedback)), |Listed(feedback)|)
    ensures IsGrouping(Enumerate(Listed(feedback)), groups)
  {
    var list := Listed(feedback);
    var xs := Enumerate(list);
    groups := [];
    var index := 0;
    while index < |list|
      invariant 0 <= index <= |list|
      invariant groups == GroupsOf(xs, index)
    {
      var item := list[index];
      var itemWithIndex := IndexedSuggestion(item, index);
      var k := GroupIndex(groups, item.category);
      if k < |groups| {
        groups := groups[k := Group(groups[k].category, groups[k].items + [itemWithIndex])];
      } else {
        groups := groups + [Group(item.category, [itemWithIndex])];
      }
      assert itemWithIndex == xs[index];
      index := index + 1;
    }
    WholeListGrouped(list);
  }

  /** Membership in a category's entries: exactly the entries of `xs` with that category. */
  lemma {:induction false} InCategoryMembers(xs: seq<IndexedSuggestion>, c: string, x: IndexedSuggestion)
    ensures x in InCategory(xs, c) <==> x in xs && x.item.category == c
    decreases |xs|
  {
    if xs != [] {
      var init := xs[..|xs| - 1];
      InCategoryMembers(init, c, x);
      assert xs == init + [xs[|xs| - 1]];
    }
  }

  /**
   * Within a category of a tagged list, every entry is the suggestion at its recorded
   * position, and the entries keep the list's order.
   */
  lemma {:induction false} InCategoryKeepsOrder(list: seq<Suggestion>, n: nat, c: string)
    requires n <= |list|
    ensures forall a | 0 <= a < |InCategory(Enumerate(list)[..n], c)| ::
      var e := InCategory(Enumerate(list)[..n], c)[a];
      e.originalIndex < n && list[e.originalIndex] == e.item && e.item.category == c
    ensures forall a, b | 0 <= a < b < |InCategory(Enumerate(list)[..n], c)| ::
      InCategory(Enumerate(list)[..n], c)[a].originalIndex < InCategory(Enumerate(list)[..n], c)[b].originalIndex
    decreases n
  {
    if n > 0 {
      var xs := Enumerate(list)[..n];
      assert xs[..n - 1] == Enumerate(list)[..n - 1];
      InCategoryKeepsOrder(list, n - 1, c);
    }
  }

  /** In a grouping of the tagged list each suggestion sits in exactly one group: its category's. */
  lemma PlacedOnce(list: seq<Suggestion>, groups: seq<Group>, i: nat)
    requires IsGrouping(Enumerate(list), groups)
    requires i < |list|
    ensures exists j | 0 <= j < |groups| ::
      groups[j].category == list[i].category && IndexedSuggestion(list[i], i) in groups[j].items
    ensures forall j | 0 <= j < |groups| && IndexedSuggestion(list[i], i) in groups[j].items ::
      groups[j].category == list[i].category
  {
    var xs := Enumerate(list);
    var x := xs[i];
    assert x == IndexedSuggestion(list[i], i);
    var j :| 0 <= j < |groups| && groups[j].category == x.item.category;
    InCategoryMembers(xs, groups[j].category, x);
    forall j' | 0 <= j' < |groups| && x in groups[j'].items
      ensures groups[j'].category == list[i].category
    {
      InCategoryMembers(xs, groups[j'].category, x);
    }
  }

  /**
   * In a grouping of the tagged list every grouped entry carries its own position, and the
   * entries of a group follow the order of the list.
   */
  lemma GroupsKeepPositions(list: seq<Suggestion>, groups: seq<Group>, j: nat)
    requires IsGrouping(Enumerate(list), groups)
    requires j < |groups|
    ensures forall a | 0 <= a < |groups[j].items| ::
      groups[j].items[a].originalIndex < |list| && list[groups[j].items[a].originalIndex] == groups[j].items[a].item
    ensures forall a, b | 0 <= a < b < |groups[j].items| ::
      groups[j].items[a].originalIndex < groups[j].items[b].originalIndex
  {
    assert Enumerate(list)[..|list|] == Enumerate(list);
    InCategoryKeepsOrder(list, |list|, groups[j].category);
  }

  // ---------------------------------------------------------------------------
  // Copy-and-update edits of the feedback list

  /** `r` is `xs` with at most the entry at `index` different. */
  predicate SameExcept(xs: seq<Suggestion>, r: seq<Suggestion>, index: nat) {
    |r| == |xs| && forall j | 0 <= j < |xs| && j != index :: r[j] == xs[j]
  }

  /** handleGenerateAiImage, before the call: the entry is marked loading and its error cleared. */
  function MarkLoading(feedback: Option<seq<Suggestion>>, index: nat): (r: Option<seq<Suggestion>>)
    requires feedback.Some? ==> index < |feedback.value|
    ensures r.Some? <==> feedback.Some?
    ensures r.Some? ==>
      && SameExcept(feedback.value, r.value, index)
      && r.value[index].generationState == Some(Loading) && r.value[index].generationError == None
      && r.value[index].generatedImage == feedback.value[index].generatedImage
      && r.value[index].category == feedback.value[index].category
      && r.value[index].suggestion == feedback.value[index].suggestion
  {
    if feedback.None? then None
    else
      var newFeedback := feedback.value;
      Some(newFeedback[index := newFeedback[index].(generationState := Some(Loading), generationError := None)])
  }

  /** handleGenerateAiImage, on success: the entry is marked done with the generated image. */
  function MarkDone(feedback: Option<seq<Suggestion>>, index: nat, imageUrl: string): (r: Option<seq<Suggestion>>)
    requires feedback.Some? ==> index < |feedback.value|
    ensures r.Some? <==> feedback.Some?
    ensures r.Some? ==>
      && SameExcept(feedback.value, r.value, index)
      && r.value[index].generationState == Some(Done) && r.value[index].generatedImage == Some(imageUrl)
      && r.value[index].generationError == feedback.value[index].generationError
      && r.value[index].category == feedback.value[index].category
      && r.value[index].suggestion == feedback.value[index].suggestion
  {
    if feedback.None? then None
    else
      var newFeedback := feedback.value;
      Some(newFeedback[index := newFeedback[index].(generationState := Some(Done), generatedImage := Some(imageUrl))])
  }

  /** handleGenerateAiImage, on failure: the entry is marked as failed with the message. */
  function MarkFailed(feedback: Option<seq<Suggestion>>, index: nat, errorMessage: string): (r: Option<seq<Suggestion>>)
    requires feedback.Some? ==> index < |feedback.value|
    ensures r.Some? <==> feedback.Some?
    ensures r.Some? ==>
      && SameExcept(feedback.value, r.value, index)
      && r.value[index].generationState == Some(Error) && r.value[index].generationError == Some(errorMessage)
      && r.value[index].generatedImage == feedback.value[index].generatedImage
      && r.value[index].category == feedback.value[index].category
      && r.value[index].suggestion == feedback.value[index].suggestion
  {
    if feedback.None? then None
    else
      var newFeedback := feedback.value;
      Some(newFeedback[index := newFeedback[index].(generationState := Some(Error), generationError := Some(errorMessage))])
  }

  /** handleApplyGeneratedImageEdit: the entry's generated image is replaced by the edited one. */
  function ReplaceGeneratedImage(feedback: Option<seq<Suggestion>>, index: nat, newDataUrl: string): (r: Option<seq<Suggestion>>)
    requires feedback.Some? ==> index < |feedback.value|
    ensures r.Some? <==> feedback.Some?
    ensures r.Some? ==>
      && SameExcept(feedback.value, r.value, index)
      && r.value[index] == feedback.value[index].(generatedImage := Some(newDataUrl))
  {
    if feedback.None? then None
    else
      var newFeedback := feedback.value;
      Some(newFeedback[index := newFeedback[index].(generatedImage := Some(newDataUrl))])
  }

  /** A generation that succeeds leaves the entry done with its image and no error. */
  lemma GenerationSucceeds(feedback: seq<Suggestion>, index: nat, imageUrl: string)
    requires index < |feedback|
    ensures var r := MarkDone(MarkLoading(Some(feedback), index), index, imageUrl).value;
      && SameExcept(feedback, r, index)
      && r[index] == feedback[index].(generationState := Some(Done), generatedImage := Some(imageUrl), generationError := None)
  {
  }

  /** A generation that fails keeps any earlier image and records the message. */
  lemma GenerationFails(feedback: seq<Suggestion>, index: nat, errorMessage: string)
    requires index < |feedback|
    ensures var r := MarkFailed(MarkLoading(Some(feedback), index), index, errorMessage).value;
      && SameExcept(feedback, r, index)
      && r[index] == feedback[index].(generationState := Some(Error), generationError := Some(errorMessage))
  {
  }

  /** The entries of `xs` whose position is not `index`: `filter((_, i) => i !== index)`. */
  function FilterOutIndex(xs: seq<Suggestion>, index: nat): (r: seq<Suggestion>)
    ensures index < |xs| ==> r == xs[..index] + xs[index + 1..]
    ensures index >= |xs| ==> r == xs
    decreases |xs|
  {
    if xs == [] then []
    else
      var last := |xs| - 1;
      var init := xs[..last];
      var kept := FilterOutIndex(init, index);
      assert index < last ==> init[..index] + init[index + 1..] + [xs[last]] == xs[..index] + xs[index + 1..];
      assert xs == init + [xs[last]];
      kept + (if last != index then [xs[last]] else [])
  }

  /** handleInsertGeneratedImage: the inserted suggestion leaves the list (a missing list becomes empty). */
  function RemoveSuggestion(feedback: Option<seq<Suggestion>>, index: nat): (r: seq<Suggestion>)
    ensures index < |Listed(feedback)| ==>
      && |r| == |Listed(feedback)| - 1
      && (forall j | 0 <= j < index :: r[j] == Listed(feedback)[j])
      && (forall j | index <= j < |r| :: r[j] == Listed(feedback)[j + 1])
    ensures index >= |Listed(feedback)| ==> r == Listed(feedback)
  {
    FilterOutIndex(Listed(feedback), index)
  }
}
