# Restaurant-notes dashboard: the property decoder

This project models the one piece of the Streamlit dashboard in `app.py` with
real semantics: `safe_get`, the defensive decoder that turns one Notion page
property into a display value, and the loop that builds one table row per
page from seven fixed (heading, property, kind) entries.

`safe_get(props, col_name, data_type)` looks up `col_name` in a page's
property map and indexes into the value the way `data_type` (`title`,
`rich_text`, `select`, `multi_select`, `url`) prescribes, with no shape
checks of its own. Every exception the indexing raises is caught and turned
into `""`. The model makes that split explicit:

- `Json.Json` is the document model as Python's `json` module decodes it, and
  the `Json` module gives Python's truthiness, `x["key"]`, `x[0]`, the list
  comprehension `[t["name"] for t in x]` and the TypeError of `str.join`,
  each as a function returning `Ok(value)` or `Raised`.
- `Extractor.Attempt` is the body of the `try` block. It either returns a value,
  raises, or falls through to the final `return ""`. `Extractor.SafeGet` is the
  total wrapper around it.
- `Schema` is an independent, explicitly typed reading of the Notion property
  schema: a tagged union with one display rule per variant. The main theorem
  proves that on every schema-conforming value, the duck-typed decoder shows
  exactly what the typed rule says.
- `Rows` is the per-page dict literal and the loop over the query results.
  `Scenarios` holds concrete documents.

Three behaviours of the code are easy to miss, and the model keeps them:

- The placeholder `無標題` is returned for any falsy `title` value, not only an
  empty span list: `null`, `""`, `{}`, `0` and `false` all give it. A
  missing property, a lookup that raises, or a first span whose stored text
  is `""` gives `""`. The placeholder never comes from a raise.
- The values under `plain_text`, `name` and `url` are returned as they are
  stored, whatever their JSON type. So the decoder's result is a JSON value,
  not always a str. On schema-conforming data it is always a str
  (`Schema.SafeGetAgreesWithSchema`). Only `multi_select` insists on strs,
  through the TypeError of `str.join`.
- A `multi_select` value that is an empty str or an empty dict does not
  raise. Iterating it visits nothing, so it gives `""` normally. A non-empty
  str or dict raises on its first element.

## Model

| member | source | states |
|---|---|---|
| Json.SubscriptItems | app.py:54 | the comprehension over a list succeeds exactly when every item is a dict holding the key, and then yields those values in list order |
| Json.AllStrings | app.py:54 | joining succeeds exactly when every collected value is a str, and then joins those strs in order |
| StrJoin.Join | app.py:54 | joining no parts gives ""; a non-empty join begins with the first part and ends with the last, so the join adds no separator before the first part or after the last |
| StrJoin.JoinLength | app.py:54 | a join of n parts has every part's characters plus exactly n - 1 separators |
| StrJoin.JoinSnoc | app.py:54 | appending a part to a non-empty list appends one separator and that part |
| StrJoin.JoinAppend | app.py:54 | joining two non-empty lists joins each, with one separator between the two results |
| StrJoin.JoinLeft | app.py:54 | building the string left to right, as `str.join` does, gives the same string as the recursive definition |
| Extractor.ParseKind | app.py:47-56 | a string picks a recognised branch only when it is exactly that kind's name |
| Extractor.ParseKindName | app.py:47-56 | each recognised kind is picked by its own name and by no other string |
| Extractor.SafeGetCatches | app.py:40-60 | a missing property, an unrecognised kind and a caught exception all give ""; the title placeholder only comes from a block that returned normally |
| Extractor.SafeGetLocal | app.py:42-45 | the result depends only on whether the property is present and on its value |
| Extractor.TitleCases | app.py:42-48 | title: missing or malformed property gives ""; falsy span list gives the placeholder; a first span holding `plain_text` gives that value; any other truthy span value gives "" |
| Extractor.TitlePlaceholderIff | app.py:48 | the placeholder appears if and only if the title key is present with a falsy span list, or the first span's text is the placeholder itself |
| Extractor.MalformedTitleIsEmpty | app.py:48-59 | a title property that is not a dict, lacks the `title` key, or has a truthy span value without a first span holding `plain_text` raises inside the `try`, and the result is "", never the placeholder |
| Extractor.RichTextCases | app.py:50 | rich text: the first span's `plain_text` when there is one, "" in every other case |
| Extractor.SelectCases | app.py:52 | select: the option's `name` when the option is a dict holding one, "" when the option is falsy or lacks `name` |
| Extractor.MultiSelectCases | app.py:54 | multi-select: the option names joined with ", " in list order when every option has a str `name`, "" otherwise |
| Extractor.JoinedNamesCases | app.py:54-59 | the multi-select branch returns normally exactly for a well-shaped option list or an empty str or dict, and raises otherwise |
| Extractor.WellShapedJoin | app.py:54 | a well-shaped option list passes both the comprehension and the join, giving the option names in order |
| Extractor.MalformedOptionsRaise | app.py:54 | an option list with an element lacking a str `name` raises in the comprehension or in the join |
| Extractor.MultiSelectEnds | app.py:54 | no options give "", one option gives exactly its name, and a longer result begins with the first name and ends with the last |
| Extractor.UrlCases | app.py:56 | url: the stored value when it is truthy; "" when it is null, empty, or the property or key is missing |
| Schema.ConformingOptionsJoin | app.py:54 | on a schema-conforming option list, the comprehension and the join give exactly the typed option names |
| Schema.SafeGetAgreesWithSchema | app.py:40-60 | on every schema-conforming property value the decoder returns the str the typed per-variant display rule gives, including the title placeholder for an empty span list |
| Schema.EncodeThenSafeGet | app.py:40-60 | serialising a typed value and decoding it with the matching kind shows its display string |
| Rows.ColumnsMatchSets | app.py:97-105 | the seven headings are distinct and are exactly the headings of the column table |
| Rows.BuildRow | app.py:97-105 | every row has exactly the seven headings |
| Rows.RowFollowsColumns | app.py:97-105 | each heading holds the decoder's result for the property and kind the table gives that heading |
| Rows.BuildRows | app.py:92-105 | one row per page, in page order, each the row of that page and each with exactly the seven headings |
| Rows.EmptyPageRow | app.py:97-105 | a page with no properties shows "" in all seven columns, the title column included |
| Rows.RowLocal | app.py:94-105 | a row depends only on the seven properties its columns read |
| Scenarios.JoinThree | app.py:54 | three parts joined are the first, separator, second, separator, third |
| Scenarios.MultiSelectThree | app.py:54 | options A, B, C show as "A, B, C" |
| Scenarios.MultiSelectEmptyAndBroken | app.py:54-59 | no options show ""; a list with one option lacking `name` shows "" |
| Scenarios.UrlExamples | app.py:56 | a stored url shows unchanged; a null url and a missing property show "" |
| Scenarios.TitleExamples | app.py:48-59 | a span's text, the placeholder for an empty list, and "" for a wrong key, a span without text, or a number |
| Scenarios.NoodleShopRow | app.py:92-105 | a page holding only a one-span title shows that text in the title column and "" in the other six |

## Left out

- `fetch_notion_data` (app.py:21-37): an HTTP POST to the Notion API. It is network I/O. Its results are modelled as the sequence of pages handed to `Rows.BuildRows`. No pagination is done there either.
- The n8n webhook sidebar (app.py:63-79): an outbound GET request plus UI feedback.
- Secrets loading and `st.stop()` (app.py:7-14), page setup (app.py:17-18), the refresh button (app.py:84-85): Streamlit runtime plumbing.
- The DataFrame, its column widths (app.py:108-117) and the empty-state message (app.py:118-119): rendering only. The column order the dict literal gives is recorded in `Rows.Columns`; a row itself is a map.
- The unguarded `page["properties"]` lookup (app.py:94), which can raise outside `safe_get`: a page is modelled by its property map.
- `data_type` is modelled as the enumeration `Extractor.Kind`. `Extractor.ParseKind` maps the source's strings onto it, and every other string becomes `Unrecognised`.
- Exception classes (KeyError, IndexError, TypeError) are not told apart. One `except Exception` catches them all.
- JSON numbers are modelled as reals, which leaves two gaps. First, Python's int `3` and float `3.0` are the same `JNum(3.0)`. A number stored under `plain_text`, `name` or `url` is returned as it is, and the two would display differently, so the model cannot tell those displays apart. Second, Python's `json` module also decodes `NaN`, `Infinity` and `-Infinity`. These are truthy floats that a real cannot hold, so documents containing them are outside the model.
- JSON strings are Dafny `string`s, which hold only Unicode scalar values. Python's `json` also decodes an escaped lone surrogate such as `"\ud800"` into a str. Documents containing one are outside the model. No operation here looks inside characters, so no outcome would differ.
- Iterating a non-empty dict visits its keys in insertion order. The model does not fix that order. The first key, a str, always raises when subscripted with `"name"`, so the outcome is the same.
