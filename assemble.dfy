/**
 * Page assembly (generateHtml): the parsed document is checked for its three required
 * members, then the head and the body are put together into the HTML document. A text
 * that is not JSON becomes an "Invalid JSON format" error; a document missing (or with
 * a falsy) project, description or blocks becomes the "Invalid JSON structure" error.
 *
 * JSON.parse itself is not modelled: its outcome is the input `JsonInput`.
 */
module Assemble {
  import opened Results
  import opened Strings
  import opened Blocks
  import Head
  import Compose

  /** The members generateHtml reads from a parsed object; None is absent or null. */
  datatype Document = Document(project: Option<string>, description: Option<string>, blocks: Option<seq<Block>>)

  /** What JSON.parse makes of the input text. */
  datatype JsonInput =
    | Unparsable(message: string)     // JSON.parse threw a SyntaxError with this message
    | NullValue                       // the text is `null`
    | OtherValue                      // a number, string, boolean or array: none of the members exists
    | ObjectValue(doc: Document)

  datatype HtmlError =
    | InvalidFormat(syntaxMessage: string)
    | InvalidStructure
    | NullRead                        // the TypeError of reading `project` from null, rethrown unchanged
  {
    /** The message of the error generateHtml throws (for NullRead, as V8 words it). */
    function Message(): string {
      match this
      case InvalidFormat(m) => "Invalid JSON format: " + m
      case InvalidStructure => "Invalid JSON structure. Missing 'project', 'description' or 'blocks'."
      case NullRead => "Cannot read properties of null (reading 'project')"
    }
  }

  /** A string member is truthy when present and not empty. */
  predicate Truthy(s: Option<string>) {
    s.Some? && s.value != ""
  }

  /** The object passes the structure check: project and description truthy, blocks present. */
  predicate WellFormed(doc: Document) {
    Truthy(doc.project) && Truthy(doc.description) && doc.blocks.Some?
  }

  /** The plan of a document that passes the structure check. */
  function PlanOf(doc: Document): ProductPlan
    requires WellFormed(doc)
  {
    ProductPlan(doc.project.value, doc.description.value, doc.blocks.value)
  }

  const DocumentOpen: string := "<!DOCTYPE html>\n<html lang=\"ko\">\n"

  const DocumentClose: string := "\n</html>"

  /** The document around a head and a body: it declares its type first and closes its `html` element last. */
  function HtmlDocument(head: string, body: string): (r: string)
    ensures StartsWith(r, DocumentOpen)
    ensures EndsWith(r, DocumentClose)
  {
    var inner := head + "\n" + body;
    assert (DocumentOpen + inner + DocumentClose)[..|DocumentOpen|] == DocumentOpen;
    assert (DocumentOpen + inner + DocumentClose)[|DocumentOpen + inner|..] == DocumentClose;
    DocumentOpen + head + "\n" + body + DocumentClose
  }

  /**
   * The structure check: a parse failure becomes InvalidFormat with the parser's message;
   * reading from `null` fails with NullRead; anything else must be an object whose project
   * and description are truthy and whose blocks are present.
   */
  function Checked(input: JsonInput): (r: Result<ProductPlan, HtmlError>)
    ensures r.Ok? <==> input.ObjectValue? && WellFormed(input.doc)
    ensures r.Ok? ==>
      && Some(r.value.project) == input.doc.project
      && Some(r.value.description) == input.doc.description
      && Some(r.value.blocks) == input.doc.blocks
  {
    match input
    case Unparsable(m) => Err(InvalidFormat(m))
    case NullValue => Err(NullRead)
    case OtherValue => Err(InvalidStructure)
    case ObjectValue(doc) => if WellFormed(doc) then Ok(PlanOf(doc)) else Err(InvalidStructure)
  }

  /** The page generated for a plan that passed the check. */
  function Page(plan: ProductPlan, fontName: string): string {
    HtmlDocument(Head.GenerateHead(plan, fontName), Compose.BodyMarkup(plan.blocks))
  }

  /** generateHtml: check the structure, then assemble the head and the scanned body. */
  method GenerateHtml(input: JsonInput, fontName: string) returns (r: Result<string, HtmlError>)
    ensures Checked(input).Err? ==> r == Err(Checked(input).error)
    ensures Checked(input).Ok? ==> r == Ok(Page(Checked(input).value, fontName))
  {
    var checked := Checked(input);
    if checked.Err? {
      r := Err(checked.error);
    } else {
      var plan := checked.value;
      var head := Head.GenerateHead(plan, fontName);
      var body := Compose.GenerateBody(plan.blocks);
      r := Ok(HtmlDocument(head, body));
    }
  }

  // ---------------------------------------------------------------------------
  // What generateHtml promises

  /** Each failure carries the message of its cause. */
  lemma FailureMessages(input: JsonInput)
    ensures input.Unparsable? ==>
      Checked(input) == Err(InvalidFormat(input.message)) &&
      Checked(input).error.Message() == "Invalid JSON format: " + input.message
    ensures input.ObjectValue? && !WellFormed(input.doc) ==>
      Checked(input).Err? &&
      Checked(input).error.Message() == "Invalid JSON structure. Missing 'project', 'description' or 'blocks'."
  {
  }

  /** The syntax error's own message follows the fixed prefix, so it can be read back. */
  lemma FormatMessageRecoverable(m: string, n: string)
    ensures StartsWith(InvalidFormat(m).Message(), "Invalid JSON format: ")
    ensures InvalidFormat(m).Message() == InvalidFormat(n).Message() ==> m == n
  {
    var p := "Invalid JSON format: ";
    assert InvalidFormat(m).Message()[..|p|] == p;
    if InvalidFormat(m).Message() == InvalidFormat(n).Message() {
      assert m == InvalidFormat(m).Message()[|p|..];
      assert n == InvalidFormat(n).Message()[|p|..];
    }
  }

  /** The document holds the head, then the body after it. */
  lemma DocumentOrder(head: string, body: string)
    ensures Contains(HtmlDocument(head, body), head)
    ensures Contains(HtmlDocument(head, body), body)
    ensures Precedes(HtmlDocument(head, body), head, body)
  {
    var m := DocumentOpen + head + "\n" + body;
    PrecedesSpliced(DocumentOpen, head, "\n", body);
    PrecedesLeft(m, DocumentClose, head, body);
    ContainsMiddle(DocumentOpen, head, "\n");
    ContainsLeft(DocumentOpen + head + "\n", body, head);
    ContainsLeft(m, DocumentClose, head);
    ContainsMiddle(DocumentOpen + head + "\n", body, DocumentClose);
  }

  /** What the head holds, the document holds. */
  lemma DocumentKeepsHead(head: string, body: string, x: string)
    requires Contains(head, x)
    ensures Contains(HtmlDocument(head, body), x)
  {
    DocumentOrder(head, body);
    ContainsTrans(HtmlDocument(head, body), head, x);
  }

  /** What the body holds in order, the document holds in the same order. */
  lemma DocumentKeepsBodyOrder(head: string, body: string, x: string, y: string)
    requires Precedes(body, x, y)
    ensures Precedes(HtmlDocument(head, body), x, y)
  {
    DocumentOrder(head, body);
    PrecedesTrans(HtmlDocument(head, body), body, x, y);
  }

  /** A generated page carries the plan's title and links the font the name selects. */
  lemma PageUsesPlanAndFont(plan: ProductPlan, fontName: string)
    ensures Contains(Page(plan, fontName), Head.TitleElement(plan))
    ensures Contains(Page(plan, fontName), Head.FontUrl(Head.SelectFont(fontName)))
  {
    var head := Head.GenerateHead(plan, fontName);
    DocumentKeepsHead(head, Compose.BodyMarkup(plan.blocks), Head.TitleElement(plan));
    DocumentKeepsHead(head, Compose.BodyMarkup(plan.blocks), Head.FontUrl(Head.SelectFont(fontName)));
  }

  /** On a generated page the fragments of the body appear in plan order. */
  lemma PageFragmentsInOrder(plan: ProductPlan, fontName: string, j: nat, k: nat)
    requires j < k < |Compose.Plan(plan.blocks)|
    ensures Precedes(Page(plan, fontName),
      Compose.RenderFragment(Compose.Plan(plan.blocks)[j]), Compose.RenderFragment(Compose.Plan(plan.blocks)[k]))
  {
    Compose.BodyFragmentsInOrder(plan.blocks, j, k);
    DocumentKeepsBodyOrder(Head.GenerateHead(plan, fontName), Compose.BodyMarkup(plan.blocks),
      Compose.RenderFragment(Compose.Plan(plan.blocks)[j]), Compose.RenderFragment(Compose.Plan(plan.blocks)[k]));
  }
}
