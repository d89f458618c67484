# Finance Variance Analysis — a Dafny model of the view-derivation core

The app is a Streamlit page over a table of `(Account, Month, Plan, Actuals)` rows. It shows the
Plan and Actuals pivots by account and calendar month, with three summary metrics. It also passes
a question and a free-text variance context to a language-model agent. This project models the
logic the script owns itself, as pure functions, with lemmas about them:

- **Pivot and month order** (`Pivoting`, `Months`, `Preview`). `DataFrame.pivot` is modelled
  from its documented contract: one cell per `(Account, Month)` pair, taken from the unique row
  with that pair. A missing column is an error, and so is a repeated pair. The columns are then
  restricted to the canonical `Jan..Dec` months that occur, in calendar order.
  Any failure shows the first 20 rows instead.
- **Summary metrics** (`Preview.SummaryMetrics`): total rows, distinct accounts, months shown.
- **Configuration** (`Config`): the secrets entry takes precedence over the typed API key.
  An upload takes precedence over `sample_data.csv`. With neither, the script stops.
  The context box starts with the variance narrative only for the sample data.
- **Question handling** (`Chat`, `App`): the agent runs only with a non-empty question and a
  non-empty key; a question without a key gets the error message instead. The prompt is a fixed
  template holding the context and then the question. A reply that is a dict with an `'output'`
  entry is shown by that entry, any other reply as it is.

The agent is an opaque function `(key, frame, prompt) -> Reply`. "The agent is never invoked" is
stated as: the outcome is the same for every agent.

The comment at app.py:57 says the reordering happens "only if all months exist". The code
applies it always, keeping the canonical months that are present and dropping any other label.
The model follows the code (`Months.AvailableMonths`, `Preview.NonCanonicalMonthDropped`).

Modules, in dependency order: `Wrappers`, `Sequences`, `Frames`, `Months`, `Pivoting`,
`Preview`, `Config`, `Chat`, `App`, one file each.

## Model

| member | source | states |
|---|---|---|
| `Sequences.Unique` | app.py:76 | `Series.unique()`: every value and only the values of the column, no repetition, at most as many as rows, first value first |
| `Sequences.NoDupCardinality` | app.py:76 | a list without repetitions has as many elements as its set, so `len(unique())` counts the distinct accounts |
| `Frames.Head` | app.py:83 | `df.head(20)` is a prefix of the rows of length min(20, number of rows) |
| `Frames.Column` | app.py:76 | `df[c]`: one cell per row, in row order, each the row's cell in column c (NaN where the row has none) |
| `Months.Present` | app.py:58 | the comprehension keeps exactly the listed labels that occur among the columns, never more than the list, without repetition when the list has none |
| `Months.AvailableMonths` | app.py:55-58 | `available_months` holds a month iff it is one of the twelve and a column label; no repetition; at most 12; other labels are dropped |
| `Months.PresentFollowsOrder` | app.py:58 | the kept labels appear by strictly increasing position in the list they were taken from |
| `Months.AvailableMonthsInCalendarOrder` | app.py:55-58 | `available_months` is in strictly increasing calendar order |
| `Months.AllMonthsAvailable` | app.py:55-59 | when all twelve months are column labels, `available_months` is the full calendar |
| `Pivoting.Cells` | app.py:49-52 | the pivot's cells, when defined, are keyed by exactly the rows' (Account, Month) pairs |
| `Pivoting.CellsDefinedIffUnique` | app.py:49-52 | the pivot is defined iff no two rows share an (Account, Month) pair |
| `Pivoting.CellsHoldRowValues` | app.py:49-52 | the cell of each row's pair holds that row's value |
| `Pivoting.PivotOn` | app.py:49-52 | `df.pivot` fails iff a required column is missing or a pair repeats; a missing column gives `MissingColumn` (`KeyError`), naming a required, absent column; `DuplicateEntries` (`ValueError`) only when a pair repeats; on success the index is the accounts, the columns the month labels, and each row's pair holds its value |
| `Pivoting.Select` | app.py:59-60 | `pivot[available_months]` keeps every row, makes the columns exactly the given months in that order, and keeps exactly the cells under a selected month, unchanged |
| `Pivoting.At` | app.py:49-68 | a displayed cell is the pivoted value for that (account, month) pair, or NaN when no row had the pair |
| `Preview.FallbackIff` | app.py:47-83 | the preview falls back exactly when a required column is missing or a pair repeats, and then shows the first min(20, n) rows; a missing Account, Month or Plan column, or a missing Actuals column with unique pairs, is reported as the missing column; a duplicate error only when a pair repeats |
| `Preview.TablesAgree` | app.py:49-60 | with all four columns present and no repeated pair, the preview pivots, and the Plan and Actuals tables share row labels (the accounts), columns (`available_months`) and filled pairs: the rows' pairs with a canonical month |
| `Preview.RowShownInBothTables` | app.py:49-60 | with all four columns present and no repeated pair, a row with a canonical month shows its Plan in the Plan table and its Actuals in the Actuals table |
| `Preview.NonCanonicalMonthDropped` | app.py:55-60 | with all four columns present and no repeated pair, a row whose month is not one of the twelve has no cell in either table, yet its account keeps its row |
| `Preview.UniqueAccountsAreIndex` | app.py:76 | the distinct values of the Account column are the pivot's row labels |
| `Preview.MetricsSummarise` | app.py:74-78 | with all four columns present and no repeated pair, the preview pivots with Total Rows = number of rows; Account Types = number of table rows, at most Total Rows; Months = number of table columns, at most 12 |
| `Preview.SummaryMetrics` | app.py:74-78 | Total Rows is the number of rows, Account Types the number of distinct accounts (at most the number of rows), Months the number of months shown |
| `Preview.DataPreview` | app.py:47-83 | the tables are shown iff all four columns exist and no (account, month) pair repeats; then both tables have the accounts as rows and the canonical months present as columns |
| `Config.ResolveKey` | app.py:17-26 | a secret is the key whenever present; otherwise the typed key; the success notice shows iff there is a secret; the warning shows iff there is no secret and nothing was typed |
| `Config.SecretShadowsInput` | app.py:19-24 | with a secret present, what is typed does not affect the key or the notice |
| `Config.SelectSource` | app.py:31-40 | an upload is always used; otherwise the sample; the script stops iff neither exists |
| `Config.DefaultContext` | app.py:86-88 | the context box starts with the narrative iff no file was uploaded, and empty otherwise |
| `Chat.FinalPrompt` | app.py:143-147 | the prompt is the lead-in, the context verbatim, the question lead-in, the question verbatim and the closing sentence, in that order; its length is the sum of the parts |
| `Chat.ParsePrompt` | app.py:143-147 | the template's inverse, which the source does not have, used to state the round trip: reading a prompt back yields a context of the requested length |
| `Chat.ParseFinalPrompt` | app.py:143-147 | the context and the question can be read back out of the prompt verbatim |
| `Chat.ParsedIsFinalPrompt` | app.py:143-147 | anything that reads back is exactly the template filled with what it reads back to |
| `Chat.PromptAmbiguous` | app.py:143-147 | for every context, middle part and question, moving the middle part across the question lead-in (from the end of the context to the start of the question) gives the same prompt: the template is not injective |
| `Chat.GateQuestion` | app.py:129-161 | the agent branch runs iff question and key are both non-empty; the key error iff only the key is empty; nothing iff there is no question |
| `Chat.Displayed` | app.py:153-156 | a dict reply with `'output'` shows that entry; any other reply is shown unchanged |
| `Chat.DisplayedIgnoresOtherEntries` | app.py:153-154 | the shown value of a dict reply is its `'output'` entry whatever else it holds |
| `Chat.Ask` | app.py:129-161 | no question shows nothing; a question without a key asks for one; otherwise the agent's reply to the final prompt is shown, or its exception message |
| `Chat.AgentOnlyWhenInvoked` | app.py:129-161 | without both a question and a key, the outcome is the same for every agent |
| `Chat.AgentSeesFinalPrompt` | app.py:143-154 | with both, the outcome depends on the agent only through its reply to the final prompt |
| `App.HaltsWithoutData` | app.py:31-40 | the script stops iff there is neither upload nor sample, and then question, context and agent change nothing |
| `App.Run` | app.py:17-161 | the script stops iff neither an upload nor the sample exists; the key notice is that of the key resolution; otherwise the preview is of the chosen frame, the default context follows the upload rule, the context passed on is the user's edit or else the default, and the question outcome is `Ask` with the resolved key, that context and that frame |
| `App.PreviewsChosenFrame` | app.py:31-60 | the preview is built from the upload when present, otherwise from the sample |
| `App.DefaultContextFollowsUpload` | app.py:86-123 | the default context is the narrative iff nothing was uploaded; an unedited box holds the default; an edited box holds the user's text |
| `App.KeyPrecedence` | app.py:17-26 | with a secret present, the typed key never changes the page |
| `App.NoKeyNoAgent` | app.py:129-161 | with an empty key the page is the same for every agent, and a question gets the key error |
| `App.AnswerUsesFinalPrompt` | app.py:129-156 | a question with a key is answered from the agent's reply to the final prompt built from the context box, whether the preview pivoted or fell back |

## Left out

- Streamlit rendering (titles, sidebar, expander, metrics, spinner, messages): the model records only which branch or notice was chosen.
- `pd.read_csv`: a frame is given already parsed, as a header and rows of cells. A reading error is not modelled for either source. The script does not catch it for an uploaded file, and for `sample_data.csv` it catches only `FileNotFoundError`, so a malformed or empty sample file also ends the script; `Option<Frame>` cannot express that crash.
- The language-model client, `create_pandas_dataframe_agent` and `agent.invoke`: network calls that run generated code. They appear as an opaque function from (key, frame, prompt) to a reply or an exception message.
- How `st.secrets` and the file system are looked up: they appear as option-valued inputs (`None` for `KeyError`/`FileNotFoundError`).
- The text of the default variance narrative (app.py:88-121): a constant with no behaviour, passed to `App.Run` as a parameter.
- The wording of the error messages shown with `st.error`: the model keeps the exception kind (`PivotError`) or the agent's message.
- Numbers: Plan and Actuals values are opaque cells (`Value`); float arithmetic plays no part and is not modelled.
- Pandas' sorted row order in the pivots: row labels are a set. NaN-filling is modelled only as `Pivoting.At` returning `Missing` for an absent pair.
- `Pivoting.PivotOn`: which missing column pandas names first is not documented. The model checks Account, then Month, then the value column, and states only that the reported column is required and absent.
- NaN in key columns: a missing Account or Month is treated as one ordinary label, not with pandas' special handling of NaN in an index.
- Python replies whose dict keys are not strings are not modelled (`Chat.PyValue` has string keys).
