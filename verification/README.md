# Stock Data Analyzer — the data-shaping core in Dafny

The dashboard in `streamlit_tab.py` fetches a ticker's prices, company
metadata and financial statements, asks a hosted language model for an
analysis, and renders everything in three tabs. Four pieces of it are pure
logic, and this project models and proves them:

- **Fundamental-data extractor** (`Fundamentals.Extract`): projects the six
  provider fields `currentPrice`, `marketCap`, `trailingPE`, `forwardPE`,
  `dividendYield` and `returnOnEquity` out of the company-metadata mapping into
  a fixed-shape `Summary` with five top-level fields, one of them the nested
  trailing/forward P/E pair. A missing key becomes the sentinel `"N/A"`.
- **Fundamental-data formatter** (`Fundamentals.Format`): renders the summary as
  the bilingual Markdown block. It appends `" IDR"` to price and market cap and
  a bare `"%"` to the unscaled dividend yield and ROE.
- **Analysis prompt** (`Prompt.BuildPrompt`): inserts the technical-data text and
  the fundamental-data text verbatim into the fixed instruction template.
- **Quarterly revenue chart** (`Revenue.SelectRevenue`): if the quarterly income
  statement has a `"Total Revenue"` line item, the chart shows that row with its
  missing cells dropped, in period order. Otherwise it shows the fixed notice.

Both texts are produced by filling a template: literal fragments with slots
between them. The `Templates` module models that once. `Fill` inserts the
arguments verbatim. `Unfill` is its inverse: it reads the arguments back out
of a filled text. The round trip is proved in both directions. The formatter's
block template is built from the same label constants the summary's
dictionary view uses.

Provider values are modelled as already-rendered strings (`map<string,
string>`). Python's `str()` of a float or an int is not modelled. A
statement's periods and amounts are type parameters.

Layout: `wrappers.dfy` (Option), `templates.dfy` (Fill/Unfill),
`fundamentals.dfy` (extractor, formatter, parser), `prompt.dfy`,
`revenue.dfy`.

## Model

| member | source | states |
|---|---|---|
| `Fundamentals.Extract` | streamlit_tab.py:47-58 | each of the six tracked keys present in the mapping gives its value unchanged; each absent one gives exactly `"N/A"` |
| `Fundamentals.SentinelExactlyWhenMissing` | streamlit_tab.py:49-56 | a summary field is `"N/A"` if and only if its key is missing or the provider's own value is `"N/A"`, so no present value is replaced by the sentinel |
| `Fundamentals.ExtractDetails` | streamlit_tab.py:47-58 | every summary is recovered from the mapping carrying its six fields under the provider's keys |
| `Fundamentals.ExtractOnlyReadsTracked` | streamlit_tab.py:47-58 | two mappings that agree on the six tracked keys, in presence and value, give the same summary |
| `Fundamentals.ExtractIgnoresOtherKeys` | streamlit_tab.py:47-58 | adding, changing or removing any untracked key leaves the summary unchanged |
| `Fundamentals.AsDict` | streamlit_tab.py:48-57 | the summary as a dictionary has exactly the five labelled top-level keys, each holding its own field (price, market cap, dividend yield, ROE); the P/E entry is a pair with exactly the keys "Trailing P/E" and "Forward P/E" holding the trailing and forward values |
| `Fundamentals.Format` | streamlit_tab.py:61-71 | the text block is the seven labels in fixed order, each followed by its field's value verbatim; " IDR" follows price and market cap, and "%" follows the unscaled dividend yield and ROE |
| `Fundamentals.ParseFormat` | streamlit_tab.py:62-70 | a summary whose values contain no space, line break or percent sign is read back exactly from its text block |
| `Fundamentals.FormatParse` | streamlit_tab.py:62-70 | any summary read out of a text formats back to exactly that text |
| `Fundamentals.FormatInjective` | streamlit_tab.py:62-70 | distinct summaries of such values give distinct text blocks, so the block loses no field |
| `Fundamentals.SummaryTextRoundTrip` | streamlit_tab.py:109-110 | end to end, the text block of a metadata mapping reads back as its extracted summary: provider values where present, "N/A" where missing |
| `Fundamentals.BlockFits` | streamlit_tab.py:62-70 | the literal after each field starts with a character such values never contain, so each field's extent in the block is unambiguous |
| `Templates.Fill` | streamlit_tab.py:36-39 | a filled template starts with its first literal, or its first argument, verbatim, and is as long as its literals and arguments together |
| `Templates.UnfillFill` | streamlit_tab.py:36-39 | reading a filled template back yields the arguments it was filled with, whenever each argument avoids the first character of the literal after it |
| `Templates.FillUnfill` | streamlit_tab.py:36-39 | whatever is read out of a text fits the template and fills back to exactly that text |
| `Templates.UnfillIff` | streamlit_tab.py:36-39 | for arguments that fit, a text is the filled template if and only if reading it back yields those arguments |
| `Templates.FillInjective` | streamlit_tab.py:36-39 | filling is injective on arguments that fit |
| `Templates.FillInterleave` | streamlit_tab.py:62-70 | filling a template that alternates literals and slots weaves the arguments between consecutive literals |
| `Templates.FitsInterleave` | streamlit_tab.py:62-70 | such a template fits arguments that avoid the first character of the literal after each of them |
| `Prompt.BuildPrompt` | streamlit_tab.py:24-39 | the prompt is opening text, technical text, separator, fundamental text and closing text; both inputs appear verbatim at fixed offsets, technical first |
| `Prompt.DirectiveRunsIntoTask` | streamlit_tab.py:25-26 | the prompt begins with the language directive immediately followed by the task sentence, with no separator between them |
| `Prompt.PromptDeterminesFundamental` | streamlit_tab.py:24-39 | for a fixed technical text, equal prompts have equal fundamental texts |
| `Prompt.PromptDeterminesTechnical` | streamlit_tab.py:24-39 | for a fixed fundamental text, equal prompts have equal technical texts |
| `Revenue.DropMissing` | streamlit_tab.py:173 | every charted point is a non-missing cell of the row, and the series is no longer than the row |
| `Revenue.DropMissingComplete` | streamlit_tab.py:173 | every non-missing cell of the row is charted |
| `Revenue.Present` | streamlit_tab.py:173 | the listed positions hold non-missing cells and strictly increase |
| `Revenue.PresentComplete` | streamlit_tab.py:173 | every non-missing position of the row is listed |
| `Revenue.DropMissingInOrder` | streamlit_tab.py:173 | the k-th charted point is the cell at the k-th non-missing position, so the series is exactly the non-missing cells in period order |
| `Revenue.DropMissingAppend` | streamlit_tab.py:173 | dropping missing cells from consecutive periods is the concatenation of dropping them from each part |
| `Revenue.DropMissingAsRow` | streamlit_tab.py:173 | a row with no missing cell is charted unchanged |
| `Revenue.DropMissingIdempotent` | streamlit_tab.py:173 | dropping missing cells a second time changes nothing |
| `Revenue.SelectRevenue` | streamlit_tab.py:172-179 | bars are produced exactly when the statement has a "Total Revenue" row; their k-th point is the row's k-th non-missing cell, and every non-missing cell is charted; otherwise the result is the fixed not-found notice |
| `Revenue.SelectRevenueOnlyReadsRevenue` | streamlit_tab.py:172-179 | statements that agree on the "Total Revenue" row give the same chart, whatever their other line items |

## Left out

- Page, sidebar, tab, spinner and Markdown rendering (streamlit_tab.py:81-167): user interface.
- The market-data downloads and the `Ticker` attribute fetches (streamlit_tab.py:103-118): network I/O to an external provider.
- The language-model client, its API key and the completion call (streamlit_tab.py:16-19, 42): a remote service with opaque output. `BuildPrompt` stops at the text that would be sent.
- `load_lottie_url` (streamlit_tab.py:74-78): an HTTP request.
- The candlestick and bar chart construction (streamlit_tab.py:132-138, 174-177): a charting library. `SelectRevenue` returns the series the bar chart would plot.
- `DataFrame.to_string()` for the technical text (streamlit_tab.py:108) and Python's `str()` of numeric field values: library formatting. Both are taken as given strings.
- Fundamentals.ParseFormat: stated only for values without a space, line break or percent sign. Any value that a number or the sentinel prints as qualifies. A value containing those characters can make two summaries format to the same text.
- Revenue.SelectRevenue: a statement is a map from label to row, so a duplicated "Total Revenue" index label is not modelled. With duplicates, pandas `.loc` returns a frame rather than a row.
- Prompt.BuildPrompt: no read-back lemma through `Unfill`. The technical and fundamental texts contain line breaks, and the literal after each slot starts with one. Per-argument injectivity is proved instead.
