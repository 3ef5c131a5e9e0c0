/** The answer generator: context formatting, call wiring and prompt choice. */
module Generators {
  import opened Base
  import opened DataModels
  import Text

  /** The texts of the documents, in list order. */
  function PageContents(docs: seq<Document>): (r: seq<string>)
    ensures |r| == |docs|
    ensures forall i :: 0 <= i < |docs| ==> r[i] == docs[i].pageContent
  {
    seq(|docs|, i requires 0 <= i < |docs| => docs[i].pageContent)
  }

  /** The context string: the page contents joined by blank lines. */
  function FormatDocs(docs: seq<Document>): string {
    Text.Join("\n\n", PageContents(docs))
  }

  /** An empty list formats to the empty string, a single document to exactly its content. */
  lemma FormatDocsShortLists(docs: seq<Document>)
    ensures |docs| == 0 ==> FormatDocs(docs) == ""
    ensures |docs| == 1 ==> FormatDocs(docs) == docs[0].pageContent
  {
  }

  /** Document `i`'s content appears at its offset: contents come in list order. */
  lemma FormatDocsContentAt(docs: seq<Document>, i: nat)
    requires i < |docs|
    ensures var at := Text.Offset("\n\n", PageContents(docs), i);
      at + |docs[i].pageContent| <= |FormatDocs(docs)| &&
      FormatDocs(docs)[at..at + |docs[i].pageContent|] == docs[i].pageContent
  {
    Text.JoinPartAt("\n\n", PageContents(docs), i);
  }

  /** A blank line separates document `i` from document `i + 1`. */
  lemma FormatDocsSeparatorAt(docs: seq<Document>, i: nat)
    requires i + 1 < |docs|
    ensures var at := Text.Offset("\n\n", PageContents(docs), i) + |docs[i].pageContent|;
      at + 2 <= |FormatDocs(docs)| &&
      FormatDocs(docs)[at..at + 2] == "\n\n"
  {
    Text.JoinSeparatorAt("\n\n", PageContents(docs), i);
  }

  /**
   * `RAGGenerator.generate`: the generation chain (prompt, model, parser) is an
   * oracle taking the context and the question.
   */
  function Generate(chain: (string, string) -> string, question: string, documents: seq<Document>): (r: string)
    ensures r == chain(FormatDocs(documents), question)
  {
    var context := FormatDocs(documents);
    chain(context, question)
  }

  /** The handle pulled from the prompt hub. */
  const HubPrompt := "rlm/rag-prompt"

  /** Where the generator's prompt comes from. */
  datatype Prompt = Custom(template: string) | Pulled(handle: string) | Fallback

  /**
   * The prompt chosen at construction: a non-empty custom template wins;
   * otherwise the hub prompt, or the built-in fallback when the pull fails
   * (`hubAvailable` is the outcome of the network call).
   */
  function SelectPrompt(promptTemplate: Option<string>, hubAvailable: bool): (p: Prompt)
    ensures promptTemplate.Some? && promptTemplate.value != "" ==> p == Custom(promptTemplate.value)
    ensures (promptTemplate.None? || promptTemplate.value == "") ==>
      p == if hubAvailable then Pulled(HubPrompt) else Fallback
  {
    if promptTemplate.Some? && promptTemplate.value != "" then Custom(promptTemplate.value)
    else if hubAvailable then Pulled(HubPrompt)
    else Fallback
  }

  /** With a custom template the hub is never consulted: its outcome cannot matter. */
  lemma CustomTemplateIgnoresHub(template: string, hub1: bool, hub2: bool)
    requires template != ""
    ensures SelectPrompt(Some(template), hub1) == SelectPrompt(Some(template), hub2) == Custom(template)
  {
  }
}
