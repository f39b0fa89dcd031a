/**
 * What the two provider clients hand to the scoring step: each provider item
 * mapped field by field to the common article shape, at most `max_results` of
 * them, and no article at all when the request or its decoding failed.
 */
module Fetch {
  import opened Wrappers
  import opened Strings

  /** A decoded provider item: a JSON object whose values are strings or `null` (None). */
  type Item = map<string, Option<string>>

  /** The common article shape; a None field is a JSON `null` carried over. */
  datatype RawArticle = RawArticle(
    date: Option<string>,
    title: Option<string>,
    content: Option<string>,
    source: Option<string>,
    link: Option<string>)

  /** `v` is what `item.get(key, "")` gives: the item's value (None for `null`), or "" when the key is missing. */
  predicate ReadsKey(item: Item, key: string, v: Option<string>)
  {
    if key in item then v == item[key] else v == Some("")
  }

  /** `item.get(key, "")` */
  function Field(item: Item, key: string): Option<string>
  {
    if key in item then item[key] else Some("")
  }

  /** A newsdata item as an article: `pubDate`, `title`, `description`, `source_id`, `link`. */
  function FromNewsdata(item: Item): (r: RawArticle)
    ensures ReadsKey(item, "pubDate", r.date) && ReadsKey(item, "title", r.title)
    ensures ReadsKey(item, "description", r.content) && ReadsKey(item, "source_id", r.source)
    ensures ReadsKey(item, "link", r.link)
  {
    RawArticle(Field(item, "pubDate"), Field(item, "title"), Field(item, "description"),
               Field(item, "source_id"), Field(item, "link"))
  }

  /** A mediastack item as an article: `published_at`, `title`, `description`, `source`, `url`. */
  function FromMediastack(item: Item): (r: RawArticle)
    ensures ReadsKey(item, "published_at", r.date) && ReadsKey(item, "title", r.title)
    ensures ReadsKey(item, "description", r.content) && ReadsKey(item, "source", r.source)
    ensures ReadsKey(item, "url", r.link)
  {
    RawArticle(Field(item, "published_at"), Field(item, "title"), Field(item, "description"),
               Field(item, "source"), Field(item, "url"))
  }

  /**
   * The articles of one provider: its items cut to the first `maxResults`, in
   * provider order, each mapped by `convert`. `payload` is None when the request
   * or the decoding failed, which the client turns into an empty list.
   */
  function Collect(payload: Option<seq<Item>>, maxResults: nat, convert: Item -> RawArticle): (r: seq<RawArticle>)
    ensures payload.None? ==> r == []
    ensures payload.Some? ==> |r| == Min(|payload.value|, maxResults)
    ensures payload.Some? ==> forall i :: 0 <= i < |r| ==> r[i] == convert(payload.value[i])
  {
    match payload
    case None => []
    case Some(items) =>
      var kept := Take(items, maxResults);
      seq(|kept|, i requires 0 <= i < |kept| => convert(kept[i]))
  }

  /** `fetch_newsdata_articles`, given the decoded `results` list. */
  function FetchNewsdata(payload: Option<seq<Item>>, maxResults: nat): (r: seq<RawArticle>)
    ensures payload.None? ==> r == []
    ensures payload.Some? ==> |r| == Min(|payload.value|, maxResults)
    ensures payload.Some? ==> forall i :: 0 <= i < |r| ==> r[i] == FromNewsdata(payload.value[i])
  {
    Collect(payload, maxResults, FromNewsdata)
  }

  /** `fetch_mediastack_articles`, given the decoded `data` list. */
  function FetchMediastack(payload: Option<seq<Item>>, maxResults: nat): (r: seq<RawArticle>)
    ensures payload.None? ==> r == []
    ensures payload.Some? ==> |r| == Min(|payload.value|, maxResults)
    ensures payload.Some? ==> forall i :: 0 <= i < |r| ==> r[i] == FromMediastack(payload.value[i])
  {
    Collect(payload, maxResults, FromMediastack)
  }

  /**
   * In the articles of either provider, a field whose key is missing from its
   * item reads as the empty string, and a present key (`null` included) as its value.
   */
  lemma MissingFieldIsEmpty(news: seq<Item>, media: seq<Item>, maxResults: nat, i: nat)
    ensures var r := FetchNewsdata(Some(news), maxResults);
            i < |r| ==>
              && ReadsKey(news[i], "pubDate", r[i].date) && ReadsKey(news[i], "title", r[i].title)
              && ReadsKey(news[i], "description", r[i].content) && ReadsKey(news[i], "source_id", r[i].source)
              && ReadsKey(news[i], "link", r[i].link)
    ensures var r := FetchMediastack(Some(media), maxResults);
            i < |r| ==>
              && ReadsKey(media[i], "published_at", r[i].date) && ReadsKey(media[i], "title", r[i].title)
              && ReadsKey(media[i], "description", r[i].content) && ReadsKey(media[i], "source", r[i].source)
              && ReadsKey(media[i], "url", r[i].link)
  {
  }

  /** Together the two providers never deliver more than `max_results` articles each. */
  lemma MergedSizeBound(news: Option<seq<Item>>, media: Option<seq<Item>>, maxResults: nat)
    ensures |FetchNewsdata(news, maxResults) + FetchMediastack(media, maxResults)| <= 2 * maxResults
  {
  }
}
