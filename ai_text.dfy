/**
 * The two text clean-ups around the model calls of the AI service: the fenced-code
 * stripping applied to the HTML a model returns (applyAiSuggestion and
 * insertImageIntoHtml share it), and the elision of the page's first style sheet before
 * the page is sent for feedback (getAiFeedback).
 */
module AiText {
  import opened Results
  import opened Strings

  const HtmlFence: string := "```html"
  const Fence: string := "```"

  /**
   * The text inside the fences that are present: an opening "```html", a closing "```".
   * Without either fence the text is kept; with both (not overlapping) it is what they wrap.
   */
  function Unfenced(t: string): (u: string)
    ensures |u| <= |t|
    ensures !StartsWith(t, HtmlFence) && !EndsWith(t, Fence) ==> u == t
    ensures StartsWith(t, HtmlFence) && EndsWith(t, Fence) && |HtmlFence| + |Fence| <= |t| ==>
      t == HtmlFence + u + Fence
  {
    var rest := if StartsWith(t, HtmlFence) then t[|HtmlFence|..] else t;
    assert StartsWith(t, HtmlFence) && EndsWith(t, Fence) && |HtmlFence| + |Fence| <= |t| ==>
      EndsWith(rest, Fence) && t == HtmlFence + rest[..|rest| - |Fence|] + Fence by {
      if StartsWith(t, HtmlFence) && EndsWith(t, Fence) && |HtmlFence| + |Fence| <= |t| {
        assert rest[|rest| - |Fence|..] == t[|t| - |Fence|..];
        assert t == t[..|HtmlFence|] + rest[..|rest| - |Fence|] + t[|t| - |Fence|..];
      }
    }
    if EndsWith(rest, Fence) then rest[..|rest| - |Fence|] else rest
  }

  /** What the clean-up makes of a model's reply: trimmed, and never longer than the reply. */
  function CleanedReply(text: string): (r: string)
    ensures IsTrimmed(r)
    ensures |r| <= |text|
  {
    Trim(Unfenced(Trim(text)))
  }

  /**
   * The post-processing of a model's reply: trim, drop a leading "```html", drop a
   * trailing "```", trim again.
   */
  method CleanModelHtml(responseText: string) returns (cleaned: string)
    ensures cleaned == CleanedReply(responseText)
    ensures IsTrimmed(cleaned)
  {
    var updatedHtml := Trim(responseText);
    ghost var trimmed := updatedHtml;
    assert |HtmlFence| == 7 && |Fence| == 3;
    if StartsWith(updatedHtml, HtmlFence) {
      updatedHtml := updatedHtml[7..];
    }
    ghost var afterOpen := updatedHtml;
    assert afterOpen == (if StartsWith(trimmed, HtmlFence) then trimmed[|HtmlFence|..] else trimmed);
    if EndsWith(updatedHtml, Fence) {
      updatedHtml := updatedHtml[..|updatedHtml| - 3];
    }
    assert updatedHtml == Unfenced(trimmed);
    cleaned := Trim(updatedHtml);
  }

  /** A reply without fences comes back as its trim. */
  lemma UnfencedReplyIsTrimmed(text: string)
    requires !StartsWith(Trim(text), HtmlFence) && !EndsWith(Trim(text), Fence)
    ensures CleanedReply(text) == Trim(text)
  {
    TrimIdempotent(text);
  }

  /** Whitespace around the reply makes no difference. */
  lemma CleanIgnoresOuterWhitespace(text: string)
    ensures CleanedReply(Trim(text)) == CleanedReply(text)
  {
    TrimIdempotent(text);
  }

  /** A reply wrapped in an html fence comes back as the trim of what the fence wraps. */
  lemma FencedReply(body: string)
    ensures CleanedReply(HtmlFence + body + Fence) == Trim(body)
  {
    var t := HtmlFence + body + Fence;
    assert IsTrimmed(t) by {
      assert t[0] == '`' && t[|t| - 1] == '`';
    }
    TrimOfTrimmed(t);
    assert t[..|HtmlFence|] == HtmlFence;
    var rest := t[|HtmlFence|..];
    assert rest == body + Fence;
    assert rest[|rest| - |Fence|..] == Fence;
    assert rest[..|rest| - |Fence|] == body;
  }

  /** Only a fence at the very start is taken off: a reply not starting with one keeps its start. */
  lemma NoOpeningFenceKeepsStart(t: string)
    requires !StartsWith(t, HtmlFence)
    ensures StartsWith(t, Unfenced(t))
  {
    if EndsWith(t, Fence) {
      assert t[..|t| - |Fence|] == Unfenced(t);
    } else {
      assert t[..|t|] == t;
    }
  }

  /** A reply with an opening fence loses exactly those seven characters at the front. */
  lemma OpeningFenceDropped(t: string)
    requires StartsWith(t, HtmlFence)
    ensures StartsWith(t[|HtmlFence|..], Unfenced(t))
    ensures |Unfenced(t)| >= |t| - |HtmlFence| - |Fence|
  {
    var rest := t[|HtmlFence|..];
    if EndsWith(rest, Fence) {
      assert rest[..|rest| - |Fence|] == Unfenced(t);
    } else {
      assert rest[..|rest|] == rest;
    }
  }

  // ---------------------------------------------------------------------------
  // Style elision: htmlInput.replace(/<style>[\s\S]*?<\/style>/, placeholder)

  const StyleOpen: string := "<style>"
  const StyleClose: string := "</style>"
  const StylePlaceholder: string := "<style>/* CSS content removed for brevity */</style>"

  /** The span ElideStyle replaces: `<style>` at `p`, the first `</style>` after it at `q`. */
  predicate FirstStyleSpan(html: string, p: nat, q: nat)
    ensures FirstStyleSpan(html, p, q) ==> q + |StyleClose| <= |html|
  {
    && OccursAt(html, StyleOpen, p)
    && (forall j | 0 <= j < p :: !OccursAt(html, StyleOpen, j))
    && p + |StyleOpen| <= q
    && OccursAt(html, StyleClose, q)
    && (forall j | p + |StyleOpen| <= j < q :: !OccursAt(html, StyleClose, j))
  }

  /** The first style span, when there is one, is determined by the page. */
  lemma FirstStyleSpanUnique(html: string, p: nat, q: nat, p': nat, q': nat)
    requires FirstStyleSpan(html, p, q) && FirstStyleSpan(html, p', q')
    ensures p == p' && q == q'
  {
  }

  /**
   * The page with its first style element replaced by the placeholder: the span runs from
   * the first "<style>" to the first "</style>" after it. Without such a span the page is
   * sent as it is: the page changes only where such a span exists.
   */
  function ElideStyle(html: string): (r: string)
    ensures IndexOf(html, StyleOpen, 0).None? ==> r == html
    ensures r != html ==> exists p: nat, q: nat ::
      FirstStyleSpan(html, p, q) && r == html[..p] + StylePlaceholder + html[q + |StyleClose|..]
  {
    match IndexOf(html, StyleOpen, 0)
    case None => html
    case Some(p) =>
      match IndexOf(html, StyleClose, p + |StyleOpen|)
      case None => html
      case Some(q) =>
        assert FirstStyleSpan(html, p, q);
        html[..p] + StylePlaceholder + html[q + |StyleClose|..]
  }

  /**
   * When the page has a style element, the first one (up to its nearest closing tag) is
   * replaced and the text before and after it is kept unchanged.
   */
  lemma ElisionReplacesFirstSpan(html: string, p: nat, q: nat)
    requires OccursAt(html, StyleOpen, p) && OccursAt(html, StyleClose, q) && p + |StyleOpen| <= q
    ensures exists p': nat, q': nat ::
      FirstStyleSpan(html, p', q') && ElideStyle(html) == html[..p'] + StylePlaceholder + html[q' + |StyleClose|..]
  {
    var p' := IndexOf(html, StyleOpen, 0).value;
    assert p' <= p;
    assert OccursAt(html, StyleClose, q) && p' + |StyleOpen| <= q;
    var q' := IndexOf(html, StyleClose, p' + |StyleOpen|).value;
    assert FirstStyleSpan(html, p', q');
  }

  /** The placeholder, and the text after the replaced span, come through as they were. */
  lemma ElisionKeepsLaterStyles(html: string, p: nat, q: nat)
    requires FirstStyleSpan(html, p, q)
    ensures ElideStyle(html) == html[..p] + StylePlaceholder + html[q + |StyleClose|..]
    ensures EndsWith(ElideStyle(html), html[q + |StyleClose|..])
  {
    var p' := IndexOf(html, StyleOpen, 0).value;
    assert p' == p;
    var q' := IndexOf(html, StyleClose, p + |StyleOpen|).value;
    assert q' == q;
    var r := ElideStyle(html);
    var tail := html[q + |StyleClose|..];
    assert r[|r| - |tail|..] == tail;
  }
}
