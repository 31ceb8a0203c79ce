# InsightXpress core, modelled in Dafny

InsightXpress is a Streamlit page. A visitor uploads an Excel sheet and
describes what they want to know. A language model then writes an analysis
of the first 20 rows. After that the visitor may draw up to two charts and
ask up to two follow-up questions. This project models the decision logic
behind that page and proves properties of it. It covers three parts:

- **Input guard and request** (`src/ai_analysis.py`):
  - the gibberish heuristic `is_input_meaningful`;
  - the moderation gate `is_input_safe`;
  - the token budget `is_within_token_limit`;
  - `generate_analysis`, which covers the order of its four gates, the tag-delimited user message and choice of system prompt it sends, and how provider failures become error messages.
- **Chart dispatch and aggregation** (`src/plotting.py`, `create_plot`):
  - column validation;
  - resolution of `Automático`;
  - the kind/column checks;
  - grouping with sums sorted largest first;
  - the top 15 bars, the top 20 line points in category order, or the top 7 pie slices plus `Outros`;
  - no figure left open on failure.
- **Session state machine** (`app.py`):
  - the history and the two counters;
  - the 2 MB upload gate;
  - the analysis, chart and follow-up actions with their limits.

Modules, one per file:

| module | file | what |
|---|---|---|
| `Outcome` | outcome.dfy | `Option`, `Result` |
| `Text` | text.dfy | Python's `isspace`, `strip`, `split()`, `isalpha`, `lower` on code points; substring search |
| `Tables` | tables.dfy | a sheet as named numeric or categorical columns; `head(n)` |
| `Provider` | provider.dfy | the provider client as two oracles: moderation and chat |
| `InputGuard` | guard.dfy | `is_input_meaningful`, `is_input_safe`, `is_within_token_limit` |
| `Prompt` | prompt.dfy | the user message, its tags, and a parser that reads it back |
| `Analysis` | analysis.dfy | `generate_analysis` |
| `Grouping` | grouping.dfy | group-by-sum, sorting, top-k, the pie's `Outros` slice |
| `Plotting` | plotting.dfy | `create_plot` |
| `Session` | session.dfy | the page's session state and its four actions |

Everything outside the program is a parameter:

- The provider's moderation and chat endpoints are total functions. They return a reply or the exception class they raise.
- The tokenizer is a function that may fail.
- The renderer of the 20-row preview as text is a function.
- The outcome of reading the uploaded file is given with the upload.

## Model

| member | source | states |
|---|---|---|
| InputGuard.IsInputMeaningful | src/ai_analysis.py:59-80 | false when the stripped text is shorter than 5 characters or has no letter. Otherwise true exactly when vowels are at least 15% of the letters (`20·vowels ≥ 3·letters`). The counts come from an independent per-character definition: accented letters are letters but not vowels. |
| InputGuard.ConsonantsAreNotMeaningful | src/ai_analysis.py:74-78 | keyboard noise without vowels (`xkzpmrrt`) is refused |
| InputGuard.IsInputSafe | src/ai_analysis.py:47-57 | blocks without asking when there is no client or the input is blank. Safe exactly when moderation answers "not flagged". A moderation API error blocks. Any other exception of the moderation call propagates with its own text. |
| InputGuard.IsWithinTokenLimit | src/ai_analysis.py:82-90 | accepts exactly when the token count is at most the limit, bound inclusive. When the tokenizer fails, accepts exactly when `4·words ≤ 3·limit`, i.e. words ≤ 0.75·limit. |
| Text.StripBounds | src/ai_analysis.py:49 | `strip()` keeps one slice of the input: everything before it and after it is whitespace, and the kept slice neither starts nor ends with whitespace |
| Text.StripEmptyIffAllSpace | src/ai_analysis.py:49 | stripping leaves nothing exactly when the text is all whitespace |
| Text.Words | src/ai_analysis.py:90 | `split()` yields non-empty words without whitespace whose concatenation is every non-whitespace character in order |
| Text.WordsCountsWordStarts | src/ai_analysis.py:90 | the number of words `split()` yields equals the number of word starts, an independent count |
| Text.AlphaLowerCounts | src/ai_analysis.py:67-72 | the lower-cased letter string has one character per letter (two for U+0130) and one vowel per ASCII vowel of either case |
| Tables.HeadKeepsPrefix | src/ai_analysis.py:111 | the preview keeps every column with its name and kind, and exactly `min(20, rows)` rows, each column a prefix of the original |
| Prompt.InstructionsDiffer | src/ai_analysis.py:18-34 | the two system prompts are different texts |
| Prompt.ParseInvertsUserMessage | src/ai_analysis.py:110-129 | reading the user message back yields the context, the data and, for a follow-up, the question, in that order. An initial message yields no question section. This holds when no section contains its own closing tag. |
| Prompt.InitialRoundTrip | src/ai_analysis.py:125-129 | the initial message reads back as context and data, with no question |
| Prompt.FollowUpRoundTrip | src/ai_analysis.py:117-122 | the follow-up message reads back as context, data and question |
| Analysis.FromReply | src/ai_analysis.py:132-151 | a reply's content is the result. A rate limit gives the rate-limit failure, a connection error the connection failure, another API error the API failure with its detail, and any other exception the unexpected failure with its detail, each a `RuntimeError`. |
| Analysis.FirstFailure | src/ai_analysis.py:96-108 | no failure exactly when the sheet is non-empty, the input is meaningful and safe, and it fits the budget. Otherwise the first failing gate in that order decides: an empty sheet before gibberish, gibberish before a moderation crash or flag, a flag before an oversize input. Each refusal is a `ValueError`; a moderation crash passes its own exception on. |
| Analysis.GateMessagesDiffer | src/ai_analysis.py:96-108 | the four refusals (empty sheet, meaningless, unsafe, too large) carry four different messages |
| Analysis.ProviderMessagesDiffer | src/ai_analysis.py:144-151 | different provider failures carry different messages; two API failures (or two unexpected errors) with different details get different messages |
| Analysis.MessagesDiffer | src/ai_analysis.py:96-151 | every failure other than a moderation crash has a message of its own |
| Analysis.ReplyFailuresDiffer | src/ai_analysis.py:132-151 | two different failing chat replies are reported with different messages |
| Analysis.GenerateAnalysis | src/ai_analysis.py:92-151 | an empty sheet is refused. Any gate failure is the result. Otherwise the chat endpoint is asked once with the request and its reply decides the result. |
| Analysis.FailureClasses | src/ai_analysis.py:96-151 | the result is a `ValueError` exactly for a gate refusal and a `RuntimeError` exactly for a provider failure. Only a crash of the moderation call is neither. |
| Analysis.ResultIsTheReply | src/ai_analysis.py:132-143 | a successful result is the content of the chat reply to the request |
| Analysis.EmptyTableConsultsNothing | src/ai_analysis.py:96-97 | an empty sheet is refused whatever the services and the input |
| Analysis.MeaninglessConsultsNoProvider | src/ai_analysis.py:100-102 | gibberish is refused before any provider call, whoever the provider is |
| Analysis.GateFailureIgnoresChat | src/ai_analysis.py:96-108 | when a gate refuses, replacing the chat endpoint changes nothing |
| Analysis.ValidatesQuestionOrContext | src/ai_analysis.py:100 | a follow-up is refused on its own meaningless question. An empty question behaves as no question. |
| Analysis.NoClientIsUnsafe | src/ai_analysis.py:49-51 | without a client, a non-empty sheet with meaningful input is refused as unsafe |
| Analysis.RequestCarriesInputs | src/ai_analysis.py:110-129 | the request uses the follow-up prompt exactly when a question is asked. Its user message reads back as the context, the preview of `min(20, rows)` rows and the question. |
| Grouping.GroupSum | src/plotting.py:42 | one entry per distinct category, each holding the sum of that category's values. Keys are distinct and the total is preserved. |
| Grouping.SortByValue | src/plotting.py:42 | a non-increasing permutation of its input |
| Grouping.GroupedIsGroupedDescending | src/plotting.py:41-42 | the grouped series is a permutation of the per-category sums, sorted largest first |
| Grouping.DistinctKeysByCount | src/plotting.py:42 | a series names each category once exactly when it has as many entries as categories |
| Grouping.BarShowsTopCategories | src/plotting.py:44-45 | the bar series shows `min(15, categories)` different categories with their sums, largest first. No category left out has a larger sum than one shown. |
| Grouping.LineShowsTopCategoriesByKey | src/plotting.py:49-50 | the line series shows `min(20, categories)` different categories with their sums, ordered by category. No category left out has a larger sum than one shown. |
| Grouping.PieFoldsRemainder | src/plotting.py:54-57 | with more than 7 groups, the pie keeps the top 7 and adds one `Outros` slice holding the sum of the rest. Its total equals the grouped total. |
| Grouping.PieOverwritesOthersGroup | src/plotting.py:54-57 | when a top-7 category is itself named `Outros`, its slice is overwritten by the remainder's sum and no slice is added. Every slice keeps its label, and every other slice keeps its value. |
| Grouping.PieKeepsCategoryTotal | src/plotting.py:54-57 | at most 7 categories give one slice each, more give 8. The slices add up to the column total, provided no top-7 category is named `Outros`. |
| Grouping.PieSlicesNonNegative | src/plotting.py:54-57 | rows without a negative value give a pie without a negative slice, the `Outros` slice included |
| Plotting.CreatePlot | src/plotting.py:8-72 | an empty or unknown column name is refused before anything else. A figure stays open exactly on success, none on failure. |
| Plotting.AutoResolution | src/plotting.py:20-47 | `Automático` on two numeric columns gives a scatter. With exactly one numeric column it gives a bar chart with the categorical column on the x axis, swapping when x was numeric. With none it fails. Whenever it resolves, it draws exactly what `Dispersão` or `Barras` draws on the same columns, swapped when x was numeric. |
| Plotting.ScatterNeedsTwoNumericColumns | src/plotting.py:31-34 | a scatter is drawn exactly when both columns are numeric, and it pairs their cells row by row |
| Plotting.GroupedKindsNeedMixedColumns | src/plotting.py:37-39 | bar, line and pie charts on two columns of the same numeric-ness fail with a message naming the chart. Bar and line charts on a mixed pair are always drawn; a pie can only fail further with the negative-slice refusal. |
| Plotting.ShownSeries | src/plotting.py:41-62 | a bar or line chart on a mixed pair is drawn with this series. A pie is drawn with it exactly when no slice is negative, and refused with pandas' negative-value error otherwise. |
| Plotting.PieDrawnWithoutNegativeValues | src/plotting.py:54-60 | a pie chart on a value column without negative numbers is always drawn |
| Plotting.BarChartShowsTopGroups | src/plotting.py:41-47 | the bar chart of a mixed pair shows the top 15 different categories by summed value |
| Plotting.LineChartShowsTopGroupsByKey | src/plotting.py:41-52 | the line chart shows the top 20 different categories by summed value, ordered by category |
| Plotting.PieChartKeepsTotal | src/plotting.py:41-62 | the pie chart shows at most 8 slices adding up to the value column's total, the 8th being `Outros`, provided no top-7 category is named `Outros` |
| Session.UploadStep | app.py:88-97 | no file changes nothing. A file over 2·1024·1024 bytes changes nothing but the notice. An unreadable file clears the sheet. A readable file becomes the sheet and sets the context. History and counters are untouched. |
| Session.AnalyzeStep | app.py:100-117 | without a sheet, with a blank context or without a client, nothing changes. Otherwise the history and both counters are reset. The history then becomes the one analysis, or stays empty on failure with the error shown: as an analysis error for a `ValueError` or `RuntimeError`, as an unexpected error otherwise. |
| Session.GraphStep | app.py:136-160 | outside its offer nothing changes. A chart appends one figure and raises the chart counter by exactly one. A failure changes nothing and shows the message. |
| Session.FollowUpStep | app.py:163-191 | outside its offer or with an empty question nothing changes. An answer appends the question and answer and raises the follow-up counter by exactly one. A failure changes nothing. |
| Session.GraphPanel | app.py:136-142 | the chart form is offered exactly when there is a history and a sheet and fewer than 2 charts, and then shows 2 minus the chart counter; otherwise it is hidden or shows the limit warning |
| Session.FollowUpPanel | app.py:163-168 | the question form is offered exactly when there is a history and a sheet and fewer than 2 answers, and then shows 2 minus the follow-up counter; otherwise it is hidden or shows the limit warning |
| Session.PanelsCountDown | app.py:142 | in a consistent session the count shown with an offered form is the limit less the charts (answers) already in the history, between 1 and the limit |
| Session.HistoryLength | app.py:106-112 | a consistent history holds the analysis plus one item per counted chart and answer, so at most 5 items |
| Session.UploadKeepsConsistent | app.py:88-97 | uploading keeps the session invariant |
| Session.AnalyzeKeepsConsistent | app.py:100-117 | analysing keeps the session invariant |
| Session.GraphKeepsConsistent | app.py:152-158 | drawing a chart keeps the session invariant |
| Session.FollowUpKeepsConsistent | app.py:183-189 | answering a question keeps the session invariant |
| Session.RunKeepsConsistent | app.py:24-33 | after any sequence of actions from a consistent session, the counters stay within 2 and the history stays within 5 items. The history starts with its only analysis and the counters count its charts and answers. |
| Session.InitialIsConsistent | app.py:24-33 | the fresh session satisfies the invariant |
| Session.FollowUpAsksAboutSessionData | app.py:186 | a follow-up answer is the chat reply to a request that carries the session's context, its sheet's preview and the question, under the follow-up prompt |

## Left out

- Widgets, layout, spinners, `st.rerun`, and the rendering of history items are not modelled. Titles, colours, tick rotation and other drawing details are not modelled either. None of these changes state.
- The OpenAI client is not modelled. That covers its construction, the API key lookup, `@st.cache_resource`, the model name, the temperature, `max_tokens` and the timeout. The client is a parameter that may be absent.
- Chat and moderation calls are oracles. The system prompt is passed to the chat oracle as a two-valued token, `Prompt.Instruction`, not as its text. The two texts are still defined and proved distinct.
- A chat reply whose content is `None` is not modelled: a reply always carries a string.
- The warning that `is_input_safe` shows on a moderation API error is not modelled; only its `False` result is.
- `tiktoken` is an oracle `string -> Option<nat>`, where `None` means the encoding raised.
- `pd.read_excel` is not modelled. Its outcome comes with the upload, as a table or the reader's error text.
- `DataFrame.to_string` is an oracle from table to text.
- pandas dtype inference becomes a numeric/categorical flag per column. Duplicate column names are not modelled: lookup takes the first.
- Cell values are integers. Floating-point sums and NaN categories are not modelled.
- Tie order in `sort_values` is unspecified: the grouped series is specified as a non-increasing permutation, not as one fixed order.
- InputGuard.IsInputMeaningful: the float test `vowels / letters < 0.15` is written as the integer test `20·vowels < 3·letters`. The two agree on realistic lengths, not on every rounding of a double.
- Text.IsLetter: `isalpha` is modelled for Basic Latin, Latin-1 Supplement and Latin Extended-A (up to U+017F). Every letter outside these blocks counts as a non-letter, including Latin letters of Latin Extended-B (U+0180–U+024F) and Latin Extended Additional (U+1E00–U+1EFF, such as Vietnamese `ạ`).
- The character limits of the context box (300) and the question box (250) are widget settings and are not modelled.
- Exceptions raised while drawing are modelled only for pandas' refusal of a pie with a negative slice (`Plotting.NegativeSlices`, a `ValueError` that `create_plot` passes on, with the text pandas gives it). Any other failure inside matplotlib or pandas, such as drawing a sheet with no rows, is not modelled.
- Session.Run takes each action as one script run on its own. The upload block, which re-runs on every script run while a file is selected, is its own action.

## Notes

- A text shorter than five characters after stripping is refused inside `is_input_meaningful`, with the "meaningless" message. The empty-sheet check is the only "empty" failure.
- Replacing the sheet by a new upload keeps the history and the counters. Later follow-ups then ask about the new sheet and the new context. The model follows the code (`Session.UploadStep`, `Session.FollowUpAsksAboutSessionData`).
- Pie charts: when one of the seven largest categories is literally named `Outros`, the remainder's sum overwrites that slice instead of adding a new one (`Grouping.PieOverwritesOthersGroup`). The total-preservation property is therefore stated under the assumption that none of the seven largest categories has that name.
