/**
 * The article table of one scan: every fetched article with its parsed date and
 * its three derived columns, the sort by date, the two display filters and the
 * three-level reading of the buzz index.
 */
module Table {
  import opened Wrappers
  import opened Fetch
  import opened Enricher
  import opened Tagger

  /** A parsed publication date (a timestamp); None is pandas' NaT. */
  type Date = Option<int>

  /** One row of the `articles` table after enrichment and date parsing. */
  datatype Article = Article(
    date: Date,
    title: Option<string>,
    content: Option<string>,
    source: Option<string>,
    link: Option<string>,
    summary: string,
    tone: string,
    model: string)

  /** The filter value that means "no filter". */
  const All: string := "Tous"

  /**
   * One row: the enrichment of `analyser_article` plus `pd.to_datetime(errors='coerce')`,
   * here the parameter `parse` (None for a date it cannot read; a `null` date is NaT too).
   */
  function Tabulate(raw: RawArticle, classify: string -> Option<string>, parse: string -> Date): (a: Article)
    ensures a.title == raw.title && a.content == raw.content && a.source == raw.source && a.link == raw.link
    ensures raw.date.None? ==> a.date.None?
    ensures raw.date.Some? ==> a.date == parse(raw.date.value)
    ensures a.summary == Summary(OrEmpty(raw.content))
    ensures a.tone == Tone(OrEmpty(raw.content), classify)
    ensures a.model == DetectModel(OrEmpty(raw.title))
  {
    var e := Analyse(raw, classify);
    var date := if raw.date.Some? then parse(raw.date.value) else None;
    Article(date, raw.title, raw.content, raw.source, raw.link, e.summary, e.tone, e.model)
  }

  /** Row by row, in input order: row `i` is article `i` enriched and dated. */
  function TabulateAll(raws: seq<RawArticle>, classify: string -> Option<string>, parse: string -> Date): (rows: seq<Article>)
    ensures |rows| == |raws|
    ensures forall i :: 0 <= i < |raws| ==> rows[i] == Tabulate(raws[i], classify, parse)
  {
    seq(|raws|, i requires 0 <= i < |raws| => Tabulate(raws[i], classify, parse))
  }

  // ---------------------------------------------------------------------------
  // Sorting by date, latest first, NaT last

  /** `x` may come before `y` in a descending sort with NaT last. */
  predicate NotEarlier(x: Date, y: Date)
  {
    y.None? || (x.Some? && y.Some? && x.value >= y.value)
  }

  ghost predicate SortedByDate(rows: seq<Article>)
  {
    forall i, j :: 0 <= i < j < |rows| ==> NotEarlier(rows[i].date, rows[j].date)
  }

  /** A row not earlier than every row of a sorted table can lead it. */
  lemma PrependSorted(b: Article, rows: seq<Article>)
    requires SortedByDate(rows)
    requires forall x :: x in rows ==> NotEarlier(b.date, x.date)
    ensures SortedByDate([b] + rows)
  {
    forall i, j | 0 <= i < j < |[b] + rows|
      ensures NotEarlier(([b] + rows)[i].date, ([b] + rows)[j].date)
    {
      if i > 0 {
        assert ([b] + rows)[i] == rows[i - 1];
      }
      assert ([b] + rows)[j] == rows[j - 1];
    }
  }

  /** Place `a` before the first row that is not later than it. */
  function Insert(a: Article, rows: seq<Article>): (r: seq<Article>)
    requires SortedByDate(rows)
    ensures SortedByDate(r)
    ensures multiset(r) == multiset(rows) + multiset{a}
    ensures forall x :: x in r <==> x == a || x in rows
  {
    if rows == [] then [a]
    else if NotEarlier(a.date, rows[0].date) then
      assert forall x :: x in rows ==> NotEarlier(a.date, x.date) by {
        forall x | x in rows ensures NotEarlier(a.date, x.date) {
          var k :| 0 <= k < |rows| && rows[k] == x;
          if k > 0 { assert NotEarlier(rows[0].date, rows[k].date); }
        }
      }
      PrependSorted(a, rows);
      [a] + rows
    else
      var rest := Insert(a, rows[1..]);
      assert rows == [rows[0]] + rows[1..];
      assert forall x :: x in rest ==> NotEarlier(rows[0].date, x.date) by {
        forall x | x in rest ensures NotEarlier(rows[0].date, x.date) {
          if x != a {
            var k :| 1 <= k < |rows| && rows[k] == x;
            assert NotEarlier(rows[0].date, rows[k].date);
          }
        }
      }
      PrependSorted(rows[0], rest);
      [rows[0]] + rest
  }

  /**
   * `articles.sort_values(by='date', ascending=False)`: the same rows, latest
   * date first, the rows without a date at the end.
   */
  function SortByDate(rows: seq<Article>): (r: seq<Article>)
    ensures SortedByDate(r)
    ensures multiset(r) == multiset(rows)
    ensures |r| == |rows|
  {
    if rows == [] then []
    else
      assert rows == [rows[0]] + rows[1..];
      Insert(rows[0], SortByDate(rows[1..]))
  }

  /** In a sorted table the undated rows form one block at the end. */
  lemma UndatedLast(rows: seq<Article>, i: nat, j: nat)
    requires SortedByDate(rows)
    requires i < j < |rows| && rows[i].date.None?
    ensures rows[j].date.None?
  {
  }

  // ---------------------------------------------------------------------------
  // The display filters

  /** A row passes the model filter and the tone filter; "Tous" lets everything through. */
  predicate Selected(a: Article, modelFilter: string, toneFilter: string)
  {
    (modelFilter == All || a.model == modelFilter) && (toneFilter == All || a.tone == toneFilter)
  }

  /** The rows that pass both filters, in table order (`articles[articles[col] == value]`). */
  function Select(rows: seq<Article>, modelFilter: string, toneFilter: string): (r: seq<Article>)
    ensures |r| <= |rows|
    ensures forall a :: a in r <==> a in rows && Selected(a, modelFilter, toneFilter)
  {
    if rows == [] then []
    else
      var rest := Select(rows[1..], modelFilter, toneFilter);
      assert forall a :: a in rows <==> a == rows[0] || a in rows[1..];
      if Selected(rows[0], modelFilter, toneFilter) then [rows[0]] + rest else rest
  }

  /** Filtering keeps the table's order: it distributes over concatenation. */
  lemma {:induction false} SelectConcat(xs: seq<Article>, ys: seq<Article>, modelFilter: string, toneFilter: string)
    ensures Select(xs + ys, modelFilter, toneFilter) == Select(xs, modelFilter, toneFilter) + Select(ys, modelFilter, toneFilter)
    decreases |xs|
  {
    if xs == [] {
      assert xs + ys == ys;
    } else {
      assert (xs + ys)[0] == xs[0];
      assert (xs + ys)[1..] == xs[1..] + ys;
      SelectConcat(xs[1..], ys, modelFilter, toneFilter);
    }
  }

  /** With both filters at "Tous" the table is shown unchanged. */
  lemma {:induction false} SelectAllIsIdentity(rows: seq<Article>)
    ensures Select(rows, All, All) == rows
  {
    if rows != [] {
      SelectAllIsIdentity(rows[1..]);
    }
  }

  /** The model filter followed by the tone filter keeps the rows that pass both. */
  lemma {:induction false} SelectInTurn(rows: seq<Article>, modelFilter: string, toneFilter: string)
    ensures Select(Select(rows, modelFilter, All), All, toneFilter) == Select(rows, modelFilter, toneFilter)
  {
    if rows != [] {
      SelectInTurn(rows[1..], modelFilter, toneFilter);
    }
  }

  /** Each row is kept as many times as it occurs, when it passes; otherwise never. */
  lemma {:induction false} SelectMultiplicity(rows: seq<Article>, modelFilter: string, toneFilter: string, a: Article)
    ensures multiset(Select(rows, modelFilter, toneFilter))[a] ==
              if Selected(a, modelFilter, toneFilter) then multiset(rows)[a] else 0
  {
    if rows != [] {
      assert rows == [rows[0]] + rows[1..];
      SelectMultiplicity(rows[1..], modelFilter, toneFilter, a);
    }
  }

  /** The number of rows that pass the filters does not depend on the order of the table. */
  lemma SelectCountIgnoresOrder(xs: seq<Article>, ys: seq<Article>, modelFilter: string, toneFilter: string)
    requires multiset(xs) == multiset(ys)
    ensures multiset(Select(xs, modelFilter, toneFilter)) == multiset(Select(ys, modelFilter, toneFilter))
    ensures |Select(xs, modelFilter, toneFilter)| == |Select(ys, modelFilter, toneFilter)|
  {
    forall a ensures multiset(Select(xs, modelFilter, toneFilter))[a] == multiset(Select(ys, modelFilter, toneFilter))[a] {
      SelectMultiplicity(xs, modelFilter, toneFilter, a);
      SelectMultiplicity(ys, modelFilter, toneFilter, a);
    }
    assert multiset(Select(xs, modelFilter, toneFilter)) == multiset(Select(ys, modelFilter, toneFilter));
    assert |multiset(Select(xs, modelFilter, toneFilter))| == |Select(xs, modelFilter, toneFilter)|;
  }

  // ---------------------------------------------------------------------------
  // The level of the buzz index

  datatype Level = Faible | Stable | Pic

  /** `niveau`: above 75 a peak, above 50 stable, otherwise low. */
  function LevelOf(index: int): (l: Level)
    ensures l == Pic <==> index > 75
    ensures l == Stable <==> 50 < index <= 75
    ensures l == Faible <==> index <= 50
  {
    if index > 75 then Pic else if index > 50 then Stable else Faible
  }

  function Rank(l: Level): nat
  {
    match l
    case Faible => 0
    case Stable => 1
    case Pic => 2
  }

  /** A higher index never reads as a lower level. */
  lemma LevelMonotone(i: int, j: int)
    requires i <= j
    ensures Rank(LevelOf(i)) <= Rank(LevelOf(j))
  {
  }
}
