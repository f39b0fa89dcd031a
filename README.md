# DS Automobiles news watch — verified model of the scoring step

The dashboard polls two news-search providers for articles about DS Automobiles.
It tags each article with a product model and a tone, posts one chat message per
article, and shows a filterable table with a "buzz" level. This project models
the part of `app.py` that has logic of its own:

- the model tagger `detecter_modele`: first match, ignoring case, over the fixed
  list `MODELES_DS`, with `"DS Global"` as the catch-all;
- the per-article enrichment `analyser_article`: summary, tone and model tag;
- the button handler. It merges the two provider lists (each already cut to
  `max_results`), enriches and dates every row, and sorts by date. It then
  notifies once per row, applies the two display filters (`"Tous"` = no
  filter), and counts the rows left;
- the three-level reading of the buzz index, over a given integer index.

Modules, one per component: `Strings` (the Python string operations used),
`Tagger`, `Fetch` (the provider field mapping and the `[:max_results]` cut),
`Enricher`, `Table` (rows, sort, filters, level) and `Scan`. `Scan` holds the
class `Dashboard`, whose `notifications` field is the log of rows posted to the
chat webhook, and whose method `RunScan` is the button handler. `Scenario` works
one two-article scan through the whole model.

Foreign code becomes parameters:

- The sentiment classifier is `classify: string -> Option<string>`. It gives
  the top label, or None when the call raises.
- `pd.to_datetime(..., errors='coerce')` is `parse: string -> Option<int>`. It
  gives None (NaT) for a date it cannot read.
- The HTTP responses are the decoded item lists, or None when the request or the
  decoding failed.

Two points where the code is easy to misread, and which the model follows as written:

- The tone is `capitalize()` of whatever label the classifier returns. It is not
  restricted to Positive / Neutral / Negative. The model proves that the tone
  has the label's characters up to case, in the capitalised shape (which
  determines it), and that it is "Neutral" when the classifier raises.
- The level thresholds are the code's: above 75 "Pic", above 50 "Stable",
  otherwise "Faible".

## Model

| member | source | states |
|---|---|---|
| `Strings.ContainsIffOccurs` | app.py:63 | the substring scan answers true exactly when the needle occurs at some position of the text (Python's `in`) |
| `Strings.CapitalizeNormalForm` | app.py:75 | `capitalize()` keeps the length and the characters up to case, always yields the capitalised shape (no lower-case first letter, no upper-case letter after it), and leaves a string unchanged exactly when it already has that shape |
| `Strings.CapitalizeUnique` | app.py:75 | a string of the capitalised shape with the characters of `s` up to case is `capitalize(s)`: those properties determine the value |
| `Tagger.FirstMention` | app.py:62-64 | the loop returns the index of an entry that occurs in the title, no earlier entry occurs, and when it returns nothing no entry occurs |
| `Tagger.DetectModel` | app.py:61-65 | the tag is always an entry of `MODELES_DS` or `"DS Global"`; it is entry i exactly when entry i occurs in the title, ignoring case, and no earlier entry does (first match in list order); it is `"DS Global"` exactly when no entry occurs, in particular for an empty title |
| `Tagger.ListOrderWins` | app.py:24 | a title naming the DS9 before the DS N4 is tagged "DS N4": the list order decides, not the position in the title |
| `Fetch.FromNewsdata` | app.py:37-41 | a newsdata item's date, title, content, source and link are `item.get` of `pubDate`, `title`, `description`, `source_id`, `link`: the value when the key is present (None for `null`), "" when it is missing |
| `Fetch.FromMediastack` | app.py:52-56 | a mediastack item's fields are `item.get` of `published_at`, `title`, `description`, `source`, `url`, with the same present / missing rule |
| `Fetch.Collect` | app.py:36-44 | a failed request gives no article; otherwise the first `max_results` items, in provider order, each mapped to one article |
| `Fetch.FetchNewsdata` | app.py:31-44 | no article when the request or decoding fails; otherwise the first `max_results` results, in order, each read as a newsdata item |
| `Fetch.FetchMediastack` | app.py:46-59 | no article when the request or decoding fails; otherwise the first `max_results` items of `data`, in order, each read as a mediastack item |
| `Fetch.MissingFieldIsEmpty` | app.py:36-57 | in the articles of either provider, every one of the five fields whose key is missing from its item reads "", and every present key (`null` included) reads as its value |
| `Fetch.MergedSizeBound` | app.py:92-94 | the merged list holds at most twice `max_results` articles |
| `Enricher.Summary` | app.py:74 | empty content gives exactly "Aucun contenu"; other content gives its first min(len, 200) characters followed by "...", so length min(len, 200) + 3, and "..." is appended even to content of 200 characters or fewer |
| `Enricher.Tone` | app.py:69-75 | the tone is the classifier's label on the first 512 characters with the same characters up to case, in the capitalised shape (so `label.capitalize()` by `CapitalizeUnique`), and "Neutral" when the classifier raises |
| `Enricher.ToneSeesOnlyWindow` | app.py:70 | contents that agree on their first 512 characters get the same tone |
| `Enricher.ToneKeepsCapitalizedLabel` | app.py:75 | a label already in capitalised form is shown as returned |
| `Enricher.Analyse` | app.py:67-75 | the summary and tone are those of the content and the model tag that of the title, a missing or null field read as ""; so the tag is from the list or the catch-all, "DS Global" for an empty title, "Aucun contenu" for empty content, and the tone capitalised |
| `Table.Tabulate` | app.py:98-100 | a row keeps the article's title, content, source and link; its summary, tone and model are the enrichment of the article; its date is `parse` of the date string, NaT for a null date |
| `Table.TabulateAll` | app.py:98-100 | exactly one row per merged article, row i being article i enriched and dated |
| `Table.Insert` | app.py:101 | inserting into a table sorted by date keeps it sorted and adds exactly that row |
| `Table.SortByDate` | app.py:101 | the sorted table is a permutation of its input with the latest dates first and the undated rows last |
| `Table.UndatedLast` | app.py:101 | in a sorted table every row after an undated row is undated too |
| `Table.Select` | app.py:106-109 | a row is shown exactly when it is in the table and passes both filters, where "Tous" lets everything through |
| `Table.SelectConcat` | app.py:107 | filtering keeps table order: it distributes over concatenation |
| `Table.SelectAllIsIdentity` | app.py:106-109 | with both filters at "Tous" the table is unchanged |
| `Table.SelectInTurn` | app.py:106-109 | the model filter followed by the tone filter keeps exactly the rows that pass both |
| `Table.SelectMultiplicity` | app.py:107 | a passing row is kept as many times as it occurs, a failing one never |
| `Table.SelectCountIgnoresOrder` | app.py:101-111 | reordering the table does not change which rows pass the filters or how many |
| `Table.LevelOf` | app.py:114 | "Pic" exactly above 75, "Stable" exactly from 51 to 75, "Faible" exactly at 50 or below |
| `Table.LevelMonotone` | app.py:114 | a higher index never gives a lower level |
| `Scan.Result` | app.py:96-111 | "no article found" exactly for an empty merge; otherwise a table whose every row passes both filters, with `mentions_today` its length |
| `Scan.Sent` | app.py:94-104 | the notified rows are all merged rows, one notification each, sorted, so their number is len(newsdata) + len(mediastack) whatever the filters |
| `Scan.NothingFoundIff` | app.py:96 | "no article found" is reported exactly when both providers returned nothing, and then nothing is notified |
| `Scan.ShownWereSent` | app.py:103-111 | the displayed rows are exactly the notified rows that pass the filters, and `mentions_today` never exceeds the number notified |
| `Scan.MentionsCountMergedRows` | app.py:111 | `mentions_today` is the number of merged rows passing the filters; the sort does not change it |
| `Scan.UnfilteredCountsAll` | app.py:106-111 | with both filters at "Tous", `mentions_today` is len(newsdata) + len(mediastack) |
| `Scan.FiltersInTurn` | app.py:106-109 | the two guarded filters, each skipped at "Tous", keep exactly the rows passing both |
| `Scenario.TwoProviderScenario` | app.py:92-111 | two DS7 articles, one dated with content, one undated and empty: both notified, the dated one first, the empty one summarised "Aucun contenu" with tone "Neutral" when the classifier raises, the label "positive" shown as "Positive", and a DS N4 filter shows none |
| `Scan.Dashboard.Notify` | app.py:77-84 | each notification appends exactly that row to the log |
| `Scan.Dashboard.NotifyAll` | app.py:103-104 | the log grows by exactly the given rows, one message each, in table order |
| `Scan.Dashboard.RunScan` | app.py:91-111 | the log grows by exactly the sorted, unfiltered rows, and the outcome is the filtered table with its count, or "no article found" for an empty merge |

## Left out

- Streamlit UI, secrets and configuration (app.py:11-22, 86-91, 116-119): presentation only. `RSS_FEEDS` is never used.
- HTTP requests and JSON decoding (app.py:31-59): network I/O. The decoded item list is an input; a failure is None.
- Slack message formatting and delivery (app.py:77-84): a webhook POST. The model keeps only the log of the rows sent.
- The sentiment model (app.py:26-29, 70): a foreign transformers model, passed in as a function. Its label vocabulary is not assumed.
- Date parsing (app.py:100): pandas' `to_datetime` is passed in as a per-string function. Pandas applies it to the whole column and may infer one format from the first non-null date, so one row's result can depend on the other rows' formats; the model does not capture that dependence.
- Table.SortByDate: pandas' default sort is not stable, so its order among rows with equal dates (or among undated rows) is unspecified. The model keeps those rows in input order. The proved properties (a permutation, latest first, NaT last) hold for any tie order.
- The buzz-index formula (app.py:112-113): it uses floating-point division by 25/7 and `random.randint(0, 20)`. Level classification is modelled over a given integer index instead.
- Strings.Lower and Strings.Capitalize: case mapping covers ASCII letters only, not the whole of Unicode's `str.lower()` / `str.capitalize()`.
- A field that pandas turns into NaN rather than None is not modelled: a missing key reads as "" and a `null` as None, and `or ""` reads both None and "" as "".
