/**
 * A worked scan: each provider returns one DS7 article, the first with content
 * and a readable date, the second with empty content and a date that does not
 * parse. The classifier raises on empty text.
 */
module Scenario {
  import opened Wrappers
  import opened Strings
  import opened Tagger
  import opened Fetch
  import opened Enricher
  import opened Table
  import opened Scan

  const Dated: RawArticle := RawArticle(Some("2025-03-01"), Some("DS7"), Some("Essai"), Some("a"), Some("l1"))
  const Undated: RawArticle := RawArticle(Some("hier"), Some("DS7"), Some(""), Some("b"), Some("l2"))

  /** A classifier that labels any text "positive" and raises on empty text. */
  function Classify(s: string): Option<string>
  {
    if s == "" then None else Some("positive")
  }

  /** A date parser that reads only "2025-03-01". */
  function Parse(s: string): Date
  {
    if s == "2025-03-01" then Some(1) else None
  }

  /** The rows the two articles should become. */
  const DatedArticle: Article :=
    Article(Some(1), Some("DS7"), Some("Essai"), Some("a"), Some("l1"), "Essai...", "Positive", "DS7")
  const UndatedArticle: Article :=
    Article(None, Some("DS7"), Some(""), Some("b"), Some("l2"), "Aucun contenu", "Neutral", "DS7")

  /** A title reading "DS7" is tagged DS7. */
  lemma TitleTag()
    ensures DetectModel("DS7") == "DS7"
  {
    assert Lower("DS7") == "ds7";
  }

  /** The label "positive" is shown as "Positive". */
  lemma PositiveTone()
    ensures Tone("Essai", Classify) == "Positive"
  {
    assert Take("Essai", ClassifierWindow) == "Essai";
    assert Capitalize("positive") == "Positive";
  }

  /** The dated article is tagged DS7, summarised with "...", and its label is capitalised. */
  lemma DatedRow()
    ensures Tabulate(Dated, Classify, Parse) == DatedArticle
  {
    TitleTag();
    PositiveTone();
  }

  /** The empty article gets the placeholder summary and the fallback tone. */
  lemma UndatedRow()
    ensures Tabulate(Undated, Classify, Parse) == UndatedArticle
  {
    TitleTag();
    assert Take("", ClassifierWindow) == "";
  }

  /** The merged articles become the two expected rows, in provider order. */
  lemma ScenarioRows()
    ensures TabulateAll([Dated] + [Undated], Classify, Parse) == [DatedArticle, UndatedArticle]
  {
    TabulatePair(Dated, Undated);
    DatedRow();
    UndatedRow();
  }

  /** Two articles become their two rows, in order. */
  lemma TabulatePair(x: RawArticle, y: RawArticle)
    ensures TabulateAll([x] + [y], Classify, Parse) == [Tabulate(x, Classify, Parse), Tabulate(y, Classify, Parse)]
  {
    var raws := [x] + [y];
    assert raws[0] == x && raws[1] == y;
    var rows := TabulateAll(raws, Classify, Parse);
    assert |rows| == 2 && rows == [rows[0], rows[1]];
  }

  /** The dated row sorts before the undated one. */
  lemma ScenarioSorted()
    ensures SortByDate([DatedArticle, UndatedArticle]) == [DatedArticle, UndatedArticle]
  {
    assert [DatedArticle, UndatedArticle][1..] == [UndatedArticle];
    assert SortByDate([UndatedArticle]) == [UndatedArticle] by {
      assert [UndatedArticle][1..] == [];
    }
  }

  /** Both articles are notified, the dated one first. */
  lemma ScenarioSent()
    ensures Sent([Dated], [Undated], Classify, Parse) == [DatedArticle, UndatedArticle]
  {
    ScenarioRows();
    ScenarioSorted();
  }

  /** A DS N4 filter keeps neither row. */
  lemma ScenarioFiltered()
    ensures Select([DatedArticle, UndatedArticle], "DS N4", All) == []
  {
    assert [DatedArticle, UndatedArticle][1..] == [UndatedArticle];
    assert Select([UndatedArticle], "DS N4", All) == [] by {
      assert [UndatedArticle][1..] == [];
    }
  }

  /**
   * Both articles are notified, the dated one first; the empty one reads
   * "Aucun contenu" and "Neutral"; a DS N4 filter shows none of them, and
   * the notifications do not depend on it.
   */
  lemma TwoProviderScenario()
    ensures var sent := Sent([Dated], [Undated], Classify, Parse);
            && |sent| == 2
            && sent[0].link == Some("l1") && sent[0].date == Some(1)
            && sent[0].model == "DS7" && sent[0].summary == "Essai..." && sent[0].tone == "Positive"
            && sent[1].link == Some("l2") && sent[1].date == None
            && sent[1].model == "DS7" && sent[1].summary == "Aucun contenu" && sent[1].tone == "Neutral"
    ensures Result([Dated], [Undated], Classify, Parse, "DS N4", All) == Report([], 0)
  {
    ScenarioSent();
    ScenarioFiltered();
    assert [Dated] + [Undated] != [];
  }
}
