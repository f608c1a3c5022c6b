/**
  The hand-off to the external highlighter after each render. The document is
  modelled by the highlighter output containers (`div.dp-highlighter`) it
  holds, in document order; the external `highlight()` call is modelled as
  adding exactly one container that wraps the current preview element.
 */
module HandOff {
  import opened Wrappers
  import opened Languages
  import opened AppState
  import opened View

  /** A highlighter output container, with the class and text of the preview it was made from. */
  datatype Container = Container(langClass: string, text: string)

  /** What `highlight()` wraps: the preview element as the view renders it for `s`. */
  function PreviewOf(s: State): (r: Container)
    ensures r.text != ""
    ensures s.programmingLanguage.Some? ==> FromClass(r.langClass) == s.programmingLanguage
  {
    Container(PreviewClass(s), PreviewText(s))
  }

  /** Re-highlighting is due when there is code and a language to highlight it as. */
  function ShouldFormat(s: State): (due: bool)
    ensures due <==> s.code != "" && PreviewClass(s) != ""
    ensures due ==> PreviewOf(s) == Container(ToClass(s.programmingLanguage.value), s.code)
  {
    s.code != "" && s.programmingLanguage.Some?
  }

  /** The document after `query_selector(...)` finds the first container, if any, and removes it. */
  function RemoveFirst(doc: seq<Container>): (r: seq<Container>)
    ensures doc == [] ==> r == []
    ensures doc != [] ==> [doc[0]] + r == doc
  {
    if doc == [] then [] else doc[1..]
  }

  /**
    `format_code`: remove the first existing container, then let the
    highlighter add one for `preview`. From at most one container, exactly
    one, for `preview`, is left; the count grows only from zero to one.
   */
  function FormatCode(doc: seq<Container>, preview: Container): (r: seq<Container>)
    ensures |doc| <= 1 ==> r == [preview]
    ensures |r| == if doc == [] then 1 else |doc|
    ensures r[|r| - 1] == preview
    ensures r[..|r| - 1] == RemoveFirst(doc)
  {
    RemoveFirst(doc) + [preview]
  }

  /**
    `rendered`: re-highlight when the state calls for it, otherwise leave the
    document as it is.
   */
  function Rendered(doc: seq<Container>, s: State): (r: seq<Container>)
    ensures !ShouldFormat(s) ==> r == doc
    ensures ShouldFormat(s) ==>
              |r| >= 1 && r[|r| - 1] == PreviewOf(s) && r[..|r| - 1] == RemoveFirst(doc)
    ensures |doc| <= 1 ==> |r| <= 1
  {
    if ShouldFormat(s) then FormatCode(doc, PreviewOf(s)) else doc
  }

  /**
    After a re-highlight from at most one container, the single container wraps
    exactly the current code, tagged with the current language's class.
   */
  lemma RenderedShowsCurrentCode(doc: seq<Container>, s: State)
    requires |doc| <= 1 && ShouldFormat(s)
    ensures Rendered(doc, s) == [Container(ToClass(s.programmingLanguage.value), s.code)]
  {
  }

  /** Without code, the highlighter is never asked, whatever the language. */
  lemma EmptyCodeNeverHighlights(doc: seq<Container>, s: State)
    requires s.code == ""
    ensures Rendered(doc, s) == doc
  {
  }
}
