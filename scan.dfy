/**
 * One press of the scan button: merge the two providers' articles, enrich and
 * date every row, sort, post one chat notification per row, then filter the
 * displayed table and count what is left.
 *
 * The chat webhook is modelled by the log of the rows it was sent, in order.
 */
module Scan {
  import opened Wrappers
  import opened Fetch
  import opened Table

  /** What the scan shows: "no article found", or the filtered table and its size. */
  datatype Outcome = NothingFound | Report(table: seq<Article>, mentions: nat)

  /**
   * The rows notified by a scan of `news` and `media`: every merged row, sorted,
   * whichever filters are set; none when both lists are empty.
   */
  function Sent(news: seq<RawArticle>, media: seq<RawArticle>,
                classify: string -> Option<string>, parse: string -> Date): (r: seq<Article>)
    ensures |r| == |news| + |media|
    ensures multiset(r) == multiset(TabulateAll(news + media, classify, parse))
    ensures SortedByDate(r)
  {
    if news + media == [] then [] else SortByDate(TabulateAll(news + media, classify, parse))
  }

  /**
   * What a scan of `news` and `media` displays under the two filters: nothing
   * found for an empty merge, otherwise the sorted rows that pass both filters,
   * in order, with `mentions_today` their number.
   */
  function Result(news: seq<RawArticle>, media: seq<RawArticle>,
                  classify: string -> Option<string>, parse: string -> Date,
                  modelFilter: string, toneFilter: string): (out: Outcome)
    ensures out.NothingFound? <==> news + media == []
    ensures out.Report? ==> out.mentions == |out.table|
    ensures out.Report? ==> forall a :: a in out.table ==> Selected(a, modelFilter, toneFilter)
  {
    if news + media == [] then NothingFound
    else
      var table := Select(Sent(news, media, classify, parse), modelFilter, toneFilter);
      Report(table, |table|)
  }

  /** "No article found" is reported exactly when both providers returned nothing, and then nothing is sent. */
  lemma NothingFoundIff(news: seq<RawArticle>, media: seq<RawArticle>,
                        classify: string -> Option<string>, parse: string -> Date,
                        modelFilter: string, toneFilter: string)
    ensures Result(news, media, classify, parse, modelFilter, toneFilter).NothingFound? <==> news == [] && media == []
    ensures news == [] && media == [] ==> Sent(news, media, classify, parse) == []
  {
    if news == [] && media == [] {
      assert news + media == [];
    } else {
      assert |news + media| > 0;
    }
  }

  /**
   * The displayed table is the notified rows that pass the filters, in the
   * notified order; so it never holds more rows than were notified.
   */
  lemma ShownWereSent(news: seq<RawArticle>, media: seq<RawArticle>,
                      classify: string -> Option<string>, parse: string -> Date,
                      modelFilter: string, toneFilter: string)
    requires news + media != []
    ensures var out := Result(news, media, classify, parse, modelFilter, toneFilter);
            var sent := Sent(news, media, classify, parse);
            && out.Report?
            && (forall a :: a in out.table <==> a in sent && Selected(a, modelFilter, toneFilter))
            && out.mentions <= |sent|
  {
  }

  /**
   * `mentions_today` counts the merged rows that pass the filters: the sort
   * does not change it.
   */
  lemma MentionsCountMergedRows(news: seq<RawArticle>, media: seq<RawArticle>,
                                classify: string -> Option<string>, parse: string -> Date,
                                modelFilter: string, toneFilter: string)
    requires news + media != []
    ensures Result(news, media, classify, parse, modelFilter, toneFilter).mentions ==
              |Select(TabulateAll(news + media, classify, parse), modelFilter, toneFilter)|
  {
    SelectCountIgnoresOrder(Sent(news, media, classify, parse), TabulateAll(news + media, classify, parse),
                            modelFilter, toneFilter);
  }

  /** Without filters every fetched article is counted. */
  lemma UnfilteredCountsAll(news: seq<RawArticle>, media: seq<RawArticle>,
                            classify: string -> Option<string>, parse: string -> Date)
    requires news + media != []
    ensures Result(news, media, classify, parse, All, All).mentions == |news| + |media|
  {
    SelectAllIsIdentity(Sent(news, media, classify, parse));
  }

  /**
   * The handler's two guarded filters, the model filter then the tone filter,
   * each skipped when set to "Tous", keep exactly the rows that pass both.
   */
  lemma FiltersInTurn(rows: seq<Article>, modelFilter: string, toneFilter: string)
    ensures var byModel := if modelFilter != All then Select(rows, modelFilter, All) else rows;
            (if toneFilter != All then Select(byModel, All, toneFilter) else byModel) ==
              Select(rows, modelFilter, toneFilter)
  {
    SelectAllIsIdentity(rows);
    SelectAllIsIdentity(Select(rows, modelFilter, All));
    SelectInTurn(rows, modelFilter, toneFilter);
  }

  /** The dashboard session, with the log of rows posted to the chat webhook. */
  class Dashboard {
    var notifications: seq<Article>

    constructor ()
      ensures notifications == []
    {
      notifications := [];
    }

    /** `envoyer_notif_slack(row)`: one message per call; delivery failures are ignored. */
    method Notify(a: Article)
      modifies this
      ensures notifications == old(notifications) + [a]
    {
      notifications := notifications + [a];
    }

    /** `for _, row in articles.iterrows(): envoyer_notif_slack(row)`: one message per row, in table order. */
    method NotifyAll(rows: seq<Article>)
      modifies this
      ensures notifications == old(notifications) + rows
    {
      for i := 0 to |rows|
        invariant notifications == old(notifications) + rows[..i]
      {
        assert rows[..i + 1] == rows[..i] + [rows[i]];
        Notify(rows[i]);
      }
      assert rows[..|rows|] == rows;
    }

    /** The button handler. */
    method RunScan(news: seq<RawArticle>, media: seq<RawArticle>,
                   classify: string -> Option<string>, parse: string -> Date,
                   modelFilter: string, toneFilter: string) returns (out: Outcome)
      modifies this
      ensures notifications == old(notifications) + Sent(news, media, classify, parse)
      ensures out == Result(news, media, classify, parse, modelFilter, toneFilter)
    {
      var merged := news + media;
      if merged == [] {
        return NothingFound;
      }
      var articles := TabulateAll(merged, classify, parse);
      articles := SortByDate(articles);
      assert articles == Sent(news, media, classify, parse);
      NotifyAll(articles);
      ghost var sorted := articles;
      if modelFilter != All {
        articles := Select(articles, modelFilter, All);
      }
      if toneFilter != All {
        articles := Select(articles, All, toneFilter);
      }
      FiltersInTurn(sorted, modelFilter, toneFilter);
      out := Report(articles, |articles|);
    }
  }
}
