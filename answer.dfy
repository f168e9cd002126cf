/** The answer-text fallback of `query` (main.py:92): the completion's direct
    `output_text`, or else `output[0].content[0].text` read with defaults. */
module Answer {
  import opened Wrappers

  /** A content item of the nested shape; `ContentItem(None)` is the empty dictionary `{}`. */
  datatype ContentItem = ContentItem(text: Option<string>)

  /** An output item of the nested shape; `OutputItem(None)` is the empty dictionary `{}`. */
  datatype OutputItem = OutputItem(content: Option<seq<ContentItem>>)

  /** The two shapes a completion response can take: one that has an
      `output_text` attribute, and a dictionary that may hold an `output` list. */
  datatype Completion =
    | WithOutputText(outputText: string)
    | WithoutOutputText(output: Option<seq<OutputItem>>)

  /** The message of the `IndexError` Python raises for `[][0]`. */
  const IndexErrorMessage: string := "list index out of range"

  /** The answer text, read as main.py:92 reads it: `output_text` when the
      attribute exists, else `completion.get('output', [{}])[0].get('content',
      [{}])[0].get('text', '')`, whose indexing fails on an empty list. */
  function AnswerText(c: Completion): (r: Result<string>)
    ensures c.WithOutputText? ==> r == Success(c.outputText)
    ensures r.Failure? ==> r.error == IndexErrorMessage
    ensures r.Failure? <==>
              && c.WithoutOutputText? && c.output.Some?
              && (c.output.value == [] || c.output.value[0].content == Some([]))
    ensures (r.Success? && c.WithoutOutputText? && c.output.Some? && c.output.value[0].content.Some?)
              ==> r.value == c.output.value[0].content.value[0].text.GetOr("")
    ensures (r.Success? && c.WithoutOutputText? && (c.output.None? || c.output.value[0].content.None?))
              ==> r.value == ""
  {
    match c
    case WithOutputText(t) => Success(t)
    case WithoutOutputText(output) =>
      var items := output.GetOr([OutputItem(None)]);
      if items == [] then Failure(IndexErrorMessage)
      else
        var contents := items[0].content.GetOr([ContentItem(None)]);
        if contents == [] then Failure(IndexErrorMessage)
        else Success(contents[0].text.GetOr(""))
  }

  /** The nested completion that carries `t` as its only text. */
  function Nested(t: string): Completion
  {
    WithoutOutputText(Some([OutputItem(Some([ContentItem(Some(t))]))]))
  }

  /** The fallback is a compatibility shim: both shapes carrying the same text
      give the same answer. */
  lemma ShapesAgree(t: string)
    ensures AnswerText(Nested(t)) == AnswerText(WithOutputText(t)) == Success(t)
  {
  }

  /** Only the first output item and its first content item are read. */
  lemma OnlyFirstItemsRead(first: ContentItem, moreContent: seq<ContentItem>, restContent: Option<seq<ContentItem>>,
                           moreOutput: seq<OutputItem>)
    ensures AnswerText(WithoutOutputText(Some([OutputItem(Some([first] + moreContent))] + moreOutput)))
            == Success(first.text.GetOr(""))
    ensures AnswerText(WithoutOutputText(Some([OutputItem(restContent)] + moreOutput)))
            == AnswerText(WithoutOutputText(Some([OutputItem(restContent)])))
  {
  }
}
