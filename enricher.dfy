/**
 * Per-article enrichment (`analyser_article`): a summary cut from the content,
 * a tone from the sentiment classifier and a model tag from the title.
 *
 * The classifier is a foreign model; here it is the parameter `classify`,
 * which gives the label of its top prediction, or None when the call raises.
 */
module Enricher {
  import opened Wrappers
  import opened Strings
  import opened Tagger
  import opened Fetch

  /** The summary of an article without content. */
  const NoContent: string := "Aucun contenu"

  /** The marker appended to every summary cut from content. */
  const Ellipsis: string := "..."

  /** Characters of content kept in a summary. */
  const SummaryLength: nat := 200

  /** Characters of content passed to the classifier. */
  const ClassifierWindow: nat := 512

  /** The label used when the classifier raises, before capitalisation. */
  const FallbackLabel: string := "neutral"

  /** The three columns `analyser_article` adds to a row. */
  datatype Enrichment = Enrichment(summary: string, tone: string, model: string)

  /** `value or ""`: a missing or `null` field reads as the empty string. */
  function OrEmpty(v: Option<string>): (s: string)
    ensures v.None? ==> s == ""
    ensures v.Some? ==> s == v.value
  {
    if v.Some? then v.value else ""
  }

  /**
   * The summary: the content's first 200 characters followed by "...", which is
   * appended even to shorter content; the placeholder when there is no content.
   */
  function Summary(content: string): (r: string)
    ensures content == "" ==> r == NoContent
    ensures content != "" ==> |r| == Min(|content|, SummaryLength) + |Ellipsis|
    ensures content != "" ==> r[|r| - |Ellipsis|..] == Ellipsis
    ensures content != "" ==> r[..|r| - |Ellipsis|] == content[..|r| - |Ellipsis|]
    ensures 0 < |content| <= SummaryLength ==> r == content + Ellipsis
  {
    if content != "" then Take(content, SummaryLength) + Ellipsis else NoContent
  }

  /**
   * The tone: the classifier's label on the first 512 characters, capitalised
   * (the same characters up to case, in the capitalised shape); "Neutral" when
   * the classifier raises.
   */
  function Tone(content: string, classify: string -> Option<string>): (r: string)
    ensures IsCapitalized(r)
    ensures var answer := classify(Take(content, ClassifierWindow));
            answer.Some? ==> |r| == |answer.value| && Lower(r) == Lower(answer.value)
    ensures classify(Take(content, ClassifierWindow)).None? ==> r == "Neutral"
  {
    var answer := classify(Take(content, ClassifierWindow));
    var name := if answer.Some? then answer.value else FallbackLabel;
    CapitalizeNormalForm(name);
    Capitalize(name)
  }

  /** Content that agrees on its first 512 characters gets the same tone. */
  lemma ToneSeesOnlyWindow(c1: string, c2: string, classify: string -> Option<string>)
    requires c1[..Min(|c1|, ClassifierWindow)] == c2[..Min(|c2|, ClassifierWindow)]
    ensures Tone(c1, classify) == Tone(c2, classify)
  {
    assert Take(c1, ClassifierWindow) == Take(c2, ClassifierWindow);
  }

  /** A label already in capitalised form ("Positive", say) is shown as it is. */
  lemma ToneKeepsCapitalizedLabel(content: string, classify: string -> Option<string>, name: string)
    requires classify(Take(content, ClassifierWindow)) == Some(name)
    requires IsCapitalized(name)
    ensures Tone(content, classify) == name
  {
    CapitalizeNormalForm(name);
  }

  /**
   * `analyser_article(row)`: the summary and tone of the content and the model
   * tag of the title, a missing or `null` field read as "".
   */
  function Analyse(row: RawArticle, classify: string -> Option<string>): (e: Enrichment)
    ensures e.summary == Summary(OrEmpty(row.content))
    ensures e.tone == Tone(OrEmpty(row.content), classify)
    ensures e.model == DetectModel(OrEmpty(row.title))
    ensures e.model in Models || e.model == Global
    ensures OrEmpty(row.title) == "" ==> e.model == Global
    ensures OrEmpty(row.content) == "" ==> e.summary == NoContent
    ensures e.summary != "" && IsCapitalized(e.tone)
  {
    var content := OrEmpty(row.content);
    var title := OrEmpty(row.title);
    Enrichment(Summary(content), Tone(content, classify), DetectModel(title))
  }
}
