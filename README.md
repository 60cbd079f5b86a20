# A verified model of the MCP_119 backend core and the sffd-sync cleaner

This project is a Dafny model of six small pieces of logic from the
repository. It proves their properties with the Dafny verifier.

- **Prompt template store** (module `PromptTemplates`, `prompt_templates.dfy`).
  - The `PROMPT_TEMPLATES` table from model to task to template, with the `"{query}"` fallback of `load_template`.
  - `fill_template`, with Python's `str.format(**kwargs)` on `{name}` fields as a formatter that can fail. Templates also have a second reading, as a list of literal and field pieces. The formatter is proved to render the text of such pieces.
  - `build_prompt_with_history`: the `role: content` history block, and the rule that puts it in front of the prompt only when the template has no `{history}`.
- **Model router** (module `ModelRouting`).
  - `ModelRouter` is a class with the two mutable maps, `taskMapping` and `userMapping`.
  - It has the three-step `route` rule and `list_models`, which is `sorted` of a set of strings.
- **Conversation context** (module `Conversation`).
  - `ConversationContext` is a class with a per-user message map.
  - `record` appends a question and answer pair. `get_history` reads a user's messages.
  - `summarize` joins the `role: content` lines and shortens them the way `textwrap.shorten(text, width, placeholder="...")` does.
- **Result summary** (module `ResultSummary`): `summarize_results` in `utils.py`.
- **JSON-RPC envelopes** (module `JsonRpc`).
  - `build_request` and `build_response` are modelled as records with optional members, together with the JSON objects they stand for.
  - Requests follow section 4 of the JSON-RPC 2.0 Specification; responses follow section 5, which requires exactly one of `result` and `error`.
- **Upsert builder and record cleaner** (module `SffdSync`): `make_upsert_sql`, `clean_value` and `clean_record` from `sffd_sync.py`.

Shared modules:

- `Strings`: joins, substring occurrence, Python's `str.strip` with its full whitespace set, word splitting, decimal text and code-point order.
- `Wrappers`: `Option` and `Result`.
- `JsonValues`: a JSON value datatype.

Parameters stand in for the effects the source performs:

- The wall clock becomes the two `Timestamp` arguments of `Record`. The source calls `datetime.utcnow` once per message.
- A fresh `uuid4` text becomes the `freshId` argument of `BuildRequest`.
- `json.dumps` becomes the `dumps` function argument of `CleanValue` and `CleanRecord`.

Python exceptions are the `Failure` side of a `Result`:

- For the formatter: `FormatError`, where `KeyError` is `MissingKey`, `ValueError` is `MalformedTemplate` (a malformed template, or a field name whose leading digits are too large for CPython to read), `IndexError` is `PositionalIndex`, and the duplicate-keyword `TypeError` is `DuplicateArgument`.
- For `textwrap.shorten`: `ShortenError`.

## Model

| member | source | states |
|---|---|---|
| PromptTemplates.TemplateChoice | MCP_119/backend/prompt_templates.py:24-56 | The template for each model and task: SQL and chart for the five listed models, the nlp template for the two qwen2.5-coder models and llama3.2:3b, and the `{query}` fallback for every other pair |
| PromptTemplates.LoadFallback | MCP_119/backend/prompt_templates.py:54-56 | A model missing from the table, or a task missing for its model, loads exactly `{query}` |
| PromptTemplates.UnlistedExamples | MCP_119/backend/prompt_templates.py:24-51 | The router's default `gpt-oss:20b` is not a model of the table, and `phi3:3.8b` is one without an `nlp` template, so by LoadFallback the first loads `{query}` for every task and the second for `nlp` |
| PromptTemplates.LoadPhi3Hyphen | MCP_119/tests/test_prompt_templates.py:9-11 | `load_template("phi3-3.8b", "nlp")` is `{query}`, not the text that test expects |
| PromptTemplates.PromptTable | MCP_119/backend/prompt_templates.py:24-51 | The table's models are exactly the five listed ones; each has `sql` and `chart`, and `nlp` exactly for the two qwen2.5-coder models and llama3.2:3b; `sql`, `chart` and `nlp` hold the SQL, chart and nlp templates |
| PromptTemplates.LoadTemplate | MCP_119/backend/prompt_templates.py:54-56 | Whatever the model and task, the loaded template has a `{query}` field |
| PromptTemplates.Format | MCP_119/backend/prompt_templates.py:59-61 | `str.format(**kwargs)`, scanned left to right by `FormatFrom`: it never reports a duplicate argument; what it renders is fixed by FormatUnparse and the Format*At lemmas |
| PromptTemplates.TemplateWellFormed | MCP_119/backend/prompt_templates.py:5-51 | Every template of the table is valid for `str.format` and has exactly its listed fields: `columns`, `reference_info`, `history` and `query` for SQL and chart, `results` and `query` for nlp, `query` for the fallback |
| PromptTemplates.FormatNeverDuplicate | MCP_119/backend/prompt_templates.py:59-61 | `str.format` itself never reports a duplicate argument; that error belongs to the call |
| PromptTemplates.FormatFieldAt | MCP_119/backend/prompt_templates.py:59-61 | A `{name}` field whose leading digits pass `PY_SSIZE_T_MAX` is a ValueError, one with any other positional name is an IndexError, a name with no argument is a KeyError, and otherwise the argument is put in and the scan goes on after the field |
| PromptTemplates.TooManyDigitsValue | MCP_119/backend/prompt_templates.py:61 | CPython's digit-by-digit reading of a field name as an index fails exactly when some run of leading digits denotes a number above `PY_SSIZE_T_MAX` |
| PromptTemplates.ShortNamesFit | MCP_119/backend/prompt_templates.py:61 | A name of at most eighteen characters is never too large to read |
| PromptTemplates.LongNumbersOverflow | MCP_119/backend/prompt_templates.py:61 | A name that starts with twenty digits, the first not `0`, is too large to read, whatever follows |
| PromptTemplates.TwentyDigitField | MCP_119/backend/prompt_templates.py:59-61 | `{99999999999999999999}` formats to a ValueError, not an IndexError |
| PromptTemplates.FormatPlainAt | MCP_119/backend/prompt_templates.py:61 | A character that is not a brace is copied |
| PromptTemplates.FormatDoubledAt | MCP_119/backend/prompt_templates.py:61 | `{{` formats as `{` and `}}` as `}` |
| PromptTemplates.FormatStrayClose | MCP_119/backend/prompt_templates.py:61 | A single `}` makes the template malformed |
| PromptTemplates.FormatUnclosedAt | MCP_119/backend/prompt_templates.py:61 | At any position, a `{` (not `{{`) followed by no other brace opens a field that never closes: a malformed template |
| PromptTemplates.FormatOpenInName | MCP_119/backend/prompt_templates.py:61 | At any position, a field name that runs into another `{` is a malformed template |
| PromptTemplates.MalformedExamples | MCP_119/backend/prompt_templates.py:61 | `"ab{cd"` and `"{a{b}"` are malformed templates |
| PromptTemplates.FormatUnparse | MCP_119/backend/prompt_templates.py:59-61 | Formatting the text of valid pieces gives exactly their rendering, so the formatter is a left inverse of writing pieces out as text |
| PromptTemplates.FormatBraceFree | MCP_119/backend/prompt_templates.py:61 | A template without braces formats to itself |
| PromptTemplates.RenderOutcome | MCP_119/backend/prompt_templates.py:59-61 | Rendering succeeds exactly when every field has an argument; otherwise the KeyError names a field that has none |
| PromptTemplates.RenderIgnoresUnused | MCP_119/backend/prompt_templates.py:59-61 | An extra argument that no field names changes nothing |
| PromptTemplates.RenderContains | MCP_119/backend/prompt_templates.py:59-61 | A successful rendering contains every field's argument verbatim, not scanned again |
| PromptTemplates.FillTemplate | MCP_119/backend/prompt_templates.py:59-61 | The call fails with a duplicate argument exactly when an extra is named `template` or `query` |
| PromptTemplates.FillUnparse | MCP_119/backend/prompt_templates.py:59-61 | Filling the text of valid pieces renders them with `query` added to the extras |
| PromptTemplates.FillPrefixQuery | MCP_119/backend/prompt_templates.py:59-61 | Brace-free text followed by `{query}` fills to that text followed by the query |
| PromptTemplates.FillHello | MCP_119/tests/test_prompt_templates.py:14-17 | `fill_template("Hello {query}", q)` is `"Hello " + q` |
| PromptTemplates.FieldOccurs | MCP_119/backend/prompt_templates.py:84 | In the text of valid pieces with brace-free literals, `{n}` occurs exactly when `n` is one of the fields |
| PromptTemplates.HistoryFieldText | MCP_119/backend/prompt_templates.py:84 | For such pieces, or any with a `history` field, the test `"{history}" in template` holds exactly when a field is `history` |
| PromptTemplates.TemplateShapes | MCP_119/backend/prompt_templates.py:5-51 | Every template of the table has that shape |
| PromptTemplates.HistoryText | MCP_119/backend/prompt_templates.py:74-76 | The history block is empty exactly when the history is |
| PromptTemplates.HistoryTextLines | MCP_119/backend/prompt_templates.py:74-76 | The history block contains every message's `role: content` line |
| PromptTemplates.AbsentResults | MCP_119/backend/prompt_templates.py:81 | An absent result text gives the same prompt as an empty one |
| PromptTemplates.BuildPrompt | MCP_119/backend/prompt_templates.py:64-86 | For any template text, the prompt is a duplicate-argument error exactly when an extra is named like a parameter of `build_prompt_with_history` or `fill_template` |
| PromptTemplates.PiecesPrompt | MCP_119/backend/prompt_templates.py:73-86 | Around the text of well-shaped pieces, the prompt is their rendering with query, history block, results and extras. The history block and a newline go in front exactly when no field is `history` and the history is not empty |
| PromptTemplates.PiecesPromptOutcome | MCP_119/backend/prompt_templates.py:77-86 | The prompt is built exactly when the pieces render, and fails with the rendering's error otherwise |
| PromptTemplates.ArgsCover | MCP_119/backend/prompt_templates.py:77-83 | The formatter's arguments cover a set of fields exactly when the extras cover those other than `query`, `history` and `results` |
| PromptTemplates.PiecesPromptSucceeds | MCP_119/backend/prompt_templates.py:77-83 | The prompt is built exactly when the extras supply every field other than `query`, `history` and `results`; otherwise the KeyError names a missing field |
| PromptTemplates.PiecesPromptHasBody | MCP_119/backend/prompt_templates.py:84-86 | Whatever the filled template contains, the prompt contains, whether or not the history goes in front |
| PromptTemplates.PiecesPromptHasField | MCP_119/backend/prompt_templates.py:77-86 | The prompt contains the argument of every field |
| PromptTemplates.PiecesPromptHistoryInFront | MCP_119/backend/prompt_templates.py:84-86 | Without a `history` field, the prompt contains the history block |
| PromptTemplates.PiecesPromptHasHistory | MCP_119/backend/prompt_templates.py:74-86 | The prompt contains every history line, whether the template places the block or it goes in front |
| PromptTemplates.BuildPromptRenders | MCP_119/backend/prompt_templates.py:64-86 | `build_prompt_with_history` is the chosen template rendered; the history block and a newline go in front exactly when the template has no `history` field and the history is not empty |
| PromptTemplates.BuildPromptWithHistory | MCP_119/backend/prompt_templates.py:64-86 | The prompt for a model and task is a duplicate-argument error exactly when an extra takes a reserved name |
| PromptTemplates.BuildPromptSucceeds | MCP_119/backend/prompt_templates.py:73-83 | The prompt is built exactly when the extras supply the template's other fields, which are `columns` and `reference_info` for SQL and chart; otherwise the error is a KeyError for a template field the extras lack |
| PromptTemplates.BuildPromptHasQuery | MCP_119/backend/prompt_templates.py:77-86 | A built prompt contains the query, for every model and task |
| PromptTemplates.BuildPromptHasResults | MCP_119/backend/prompt_templates.py:77-86 | A built prompt contains the results text when the template has a `results` field |
| PromptTemplates.BuildPromptHasHistory | MCP_119/backend/prompt_templates.py:73-86 | A built prompt contains every line of the history |
| PromptTemplates.BuildPromptContents | MCP_119/backend/prompt_templates.py:73-86 | A built prompt contains the query and every history line, and it contains the results when the template has a `results` field |
| PromptTemplates.QwenCoderNlp | MCP_119/backend/prompt_templates.py:34-41 | `qwen2.5-coder:3b` has the nlp template |
| PromptTemplates.NlpPrompt | MCP_119/backend/prompt_templates.py:73-86 | An nlp prompt without extras is always built and contains the query, the results and every history line |
| PromptTemplates.TwoExchangePrompt | MCP_119/tests/test_prompt_context_integration.py:10-21 | The nlp prompt for a four-message history holds both user lines, both assistant lines, the question and the results |
| PromptTemplates.PromptWithRecordedHistory | MCP_119/tests/test_prompt_context_integration.py:10-21 | Two exchanges recorded in a new context and put into an nlp prompt: the prompt is built and holds `user: q1`, `assistant: a1`, `user: q2`, `assistant: a2`, the question and the results |
| ModelRouting.ModelRouter.constructor | MCP_119/backend/model_router.py:7-16 | A new router has the task table `model1` to `gpt-oss:20b` and `model2` to `qwen2.5-coder:7b`, and no user preferences |
| ModelRouting.ModelRouter.AddUserPreference | MCP_119/backend/model_router.py:18-20 | Sets or overwrites one user's preference; the task table and every other preference are unchanged, and `model1` stays in the task table |
| ModelRouting.ModelRouter.Route | MCP_119/backend/model_router.py:22-29 | Routing is total and gives a model one of the tables names. A known, non-empty user id gives that user's preference; without one, a known, non-empty task type gives its model; without either (absent, empty or unknown) the route is `model1`'s model |
| ModelRouting.ModelRouter.ListModels | MCP_119/backend/model_router.py:31-34 | The list is strictly sorted, so it has no duplicates, and its elements are exactly the values of the two tables |
| ModelRouting.SortedList | MCP_119/backend/model_router.py:33-34 | `sorted` of a set of strings: strictly increasing in code-point order, as long as the set, with the same members |
| ModelRouting.SortedUnique | MCP_119/backend/model_router.py:34 | Two strictly sorted sequences with the same members are equal, so the sorted list is determined by the set |
| ModelRouting.RoutePrefersUser | MCP_119/backend/model_router.py:24-25 | A known, non-empty user id decides the route whatever the task type |
| ModelRouting.RouteListed | MCP_119/backend/model_router.py:22-34 | Every route is one of the listed models |
| ModelRouting.ListModelsIs | MCP_119/backend/model_router.py:31-34 | The listed models are the only strictly sorted sequence of the models the tables name |
| ModelRouting.RoutingScenario | MCP_119/tests/test_model_router.py:8-16 | A new router sends the unknown task `code` to `gpt-oss:20b` (not the name that test expects) and `model2` to `qwen2.5-coder:7b`; after a preference, it sends `alice` to `custom-model` |
| ModelRouting.ListScenario | MCP_119/tests/test_model_router_list.py:8-19 | A new router with `alice`'s preference lists exactly `custom-model`, `gpt-oss:20b` and `qwen2.5-coder:7b`, in that order, not the six models that test expects |
| Conversation.ConversationContext.constructor | MCP_119/backend/context_manager.py:20-21 | A new context has an empty history for every user |
| Conversation.ConversationContext.GetHistory | MCP_119/backend/context_manager.py:28-30 | A user's messages, or the empty list for a user never recorded; reading changes nothing and creates no entry |
| Conversation.ConversationContext.Record | MCP_119/backend/context_manager.py:23-26 | The user's history grows by exactly the user message with the query and then the assistant message with the response; the earlier messages and every other user's history are unchanged |
| Conversation.ConversationContext.Summarize | MCP_119/backend/context_manager.py:32-36 | The summary is `Shorten` of the user's lines joined by spaces, so it exists exactly when the width fits the placeholder, is at most that long, is the whole collapsed text when that fits, and is otherwise cut at a word boundary (ShortenCutsAtWord) and ends with `...` |
| Conversation.Shorten | MCP_119/backend/context_manager.py:36 | `textwrap.shorten`: raises for a width below one or below the placeholder's length; otherwise within the width, the collapsed text when it fits, else ending with the placeholder |
| Conversation.ShortenCutsAtWord | MCP_119/backend/context_manager.py:36 | When the text does not fit, the summary is the longest run of leading words that fits beside the placeholder. That run is a prefix of the collapsed text and ends at a word boundary |
| Conversation.SummaryText | MCP_119/backend/context_manager.py:34-35 | The text `summarize` shortens holds the `role: content` line of every message |
| Conversation.RecordThenGetHistory | MCP_119/tests/test_context_manager.py:9-15 | One recorded exchange reads back as a user message with the query and then an assistant message with the response |
| Conversation.SummarizeWithinBound | MCP_119/tests/test_context_manager.py:18-24 | Three exchanges summarised into 50 characters fit in 50 characters |
| ResultSummary.SummarizeResults | MCP_119/backend/utils.py:4-10 | The summary is the fixed no-data sentence exactly when there are no rows |
| ResultSummary.SummaryCount | MCP_119/backend/utils.py:8-10 | A non-empty summary holds, after its opening, the decimal row count, which reads back as the count and is followed by a space |
| ResultSummary.SummaryColumns | MCP_119/backend/utils.py:9-10 | A non-empty summary names every column of the first row |
| ResultSummary.SummaryColumnOrder | MCP_119/backend/utils.py:9-10 | A non-empty summary names the first row's columns in that row's key order, joined by `, ` |
| ResultSummary.SummaryFirstRowOnly | MCP_119/backend/utils.py:8-10 | Only the row count and the first row's column names matter; later rows and every value are ignored |
| ResultSummary.TwoRowExample | MCP_119/tests/test_result_summary.py:12-19 | The summary of the rows `{id: 1, name: Alice}` and `{id: 2, name: Bob}` contains `2`, `id` and `name` |
| JsonRpc.BuildRequest | MCP_119/backend/jsonrpc.py:7-16 | The version is `2.0` and the method is kept; absent or empty params become `{}`, other params are kept; a given id, even `""`, is kept, and only an absent one is replaced by a fresh text |
| JsonRpc.BuildResponse | MCP_119/backend/jsonrpc.py:19-29 | The version is `2.0` and the id is echoed, absence included; a given error makes an error response without `result`, and otherwise `result` is present and `error` absent |
| JsonRpc.RequestObject | MCP_119/backend/jsonrpc.py:11-16 | The request object has exactly the members `jsonrpc`, `method`, `params` and `id` |
| JsonRpc.ResponseObject | MCP_119/backend/jsonrpc.py:21-29 | The response object always has `jsonrpc` and `id`, has `result` or `error` exactly when the record holds it, and has no other member |
| JsonRpc.RequestRoundTrip | MCP_119/backend/jsonrpc.py:11-16 | A request reads back from its JSON object unchanged |
| JsonRpc.ResponseRoundTrip | MCP_119/backend/jsonrpc.py:21-29 | A response reads back from its JSON object unchanged |
| JsonRpc.ResponseObjectMembers | MCP_119/backend/jsonrpc.py:19-29 | A built response object has exactly one of `result` and `error`. It has `error` exactly when an error was given. Its `jsonrpc` is `2.0` and its `id` is the given id or null |
| JsonRpc.RequestObjectMembers | MCP_119/backend/jsonrpc.py:7-16 | A built request object has `jsonrpc` `2.0`, the method, an object of parameters and a text id |
| SffdSync.NonKeyColumns | Agent/sffd-sync/sffd_sync.py:25 | The filtered columns are exactly the columns of `cols` that are not keys |
| SffdSync.NonKeyColumnsAppend | Agent/sffd-sync/sffd_sync.py:25 | The filter keeps `cols` order: filtering two consecutive lists gives the two filtered lists one after the other |
| SffdSync.MakeUpsertSql | Agent/sffd-sync/sffd_sync.py:23-31 | The statement holds the INSERT line with all columns joined by commas, the ON CONFLICT line with the keys joined by commas, and the SET clause line |
| SffdSync.SetClauseTargets | Agent/sffd-sync/sffd_sync.py:25 | Each SET assignment is `c=EXCLUDED.c` for a non-key column of `cols`, and every such column gets one |
| SffdSync.SetClauseSkipsKeys | Agent/sffd-sync/sffd_sync.py:25 | For column names without `=`, no assignment sets a key column |
| SffdSync.KeysThenColumn | Agent/sffd-sync/sffd_sync.py:25 | Two key columns and then a non-key column: the SET clause is that column's assignment alone |
| SffdSync.DefaultKeysExample | Agent/sffd-sync/sffd_sync.py:23-31 | With the default keys, the columns `call_number`, `unit_id` and `priority` give the SET clause `priority=EXCLUDED.priority` |
| SffdSync.CleanValue | Agent/sffd-sync/sffd_sync.py:48-58 | Null stays null. A string becomes its stripped form, or null when nothing is left. An array or object becomes its JSON text. Booleans and numbers are kept. The result is never an array or object |
| SffdSync.CleanValueIdempotent | Agent/sffd-sync/sffd_sync.py:51-55 | Cleaning is idempotent on everything but arrays and objects, and a stripped non-empty string is a fixed point |
| SffdSync.CleanTwice | Agent/sffd-sync/sffd_sync.py:60-62 | Cleaning twice, as `clean_record` does, equals cleaning once except for arrays and objects, whose JSON text is cleaned as a string |
| SffdSync.NormalizeKey | Agent/sffd-sync/sffd_sync.py:61 | The normalised key has the same length, no spaces and no capitals; each space becomes `_` and every other character is ASCII-lower-cased |
| SffdSync.NormalizeKeyIdempotent | Agent/sffd-sync/sffd_sync.py:61 | Normalising a normalised key changes nothing |
| SffdSync.NormalizeRecord | Agent/sffd-sync/sffd_sync.py:61 | The dict comprehension of `clean_record`: every value is a cleaned value, never an array or object |
| SffdSync.NormalizeRecordKeys | Agent/sffd-sync/sffd_sync.py:61 | The normalised record's keys are exactly the normalised keys of the entries |
| SffdSync.NormalizeLastWins | Agent/sffd-sync/sffd_sync.py:61 | A normalised key holds the cleaned value of the last entry whose key normalises to it |
| SffdSync.CleanRecord | Agent/sffd-sync/sffd_sync.py:60-62 | One value per column, so the row is as long as `cols`, and no value is an array or object |
| SffdSync.CleanRecordMissing | Agent/sffd-sync/sffd_sync.py:62 | A column that no key normalises to is null |
| SffdSync.CleanRecordLastWins | Agent/sffd-sync/sffd_sync.py:60-62 | A column holds the value of the last entry whose key normalises to it, cleaned twice. For anything but an array or object, that is the value cleaned once |
| SffdSync.CollidingKeys | Agent/sffd-sync/sffd_sync.py:61-62 | Of two keys that normalise to the same column, the later one wins |
| SffdSync.UnitIdKeys | Agent/sffd-sync/sffd_sync.py:61 | `Unit ID` and `unit_id` both normalise to `unit_id` |
| Strings.Strip | Agent/sffd-sync/sffd_sync.py:52 | `str.strip`: the result is a slice of the input with whitespace only outside it and none at its two ends; it is empty exactly when the input is all whitespace; a stripped text is kept |
| Strings.StripUnique | Agent/sffd-sync/sffd_sync.py:52 | Only one such slice exists, so the input minus its leading and trailing whitespace is the result |
| Strings.DecimalRoundTrip | MCP_119/backend/utils.py:10 | The decimal text of a count reads back as that count |
| Strings.StrLessTotal | MCP_119/backend/model_router.py:34 | Code-point order on strings is total; with StrLessIrreflexive and StrLessTransitive it is a strict order, so `sorted` is well defined |

## Left out

- The format-spec and conversion parts of `str.format` (`{name:spec}`, `{name!r}`), and attribute or index access in a field. No template of the table uses them. A `:` or `!` is read as part of the field name.
- Unicode case mapping: `NormalizeKey` lower-cases ASCII letters only, where `str.lower` maps all of Unicode.
- Conversation.Shorten: does not model how `textwrap` splits words at hyphens. Words are separated by whitespace only.
- `Message.timestamp`: the wall clock is not modelled. `Record` takes the two timestamps as arguments.
- `uuid4`: not modelled; `BuildRequest` takes the fresh id as an argument.
- `json.dumps`: not modelled; it is the `dumps` argument.
- Floating-point JSON numbers: `JNumber` holds an integer. `build_response`'s `result` may be any JSON value.
- JsonRpc.ResponseObject: JSON objects are maps, so the member order of the Python dicts is left out.
- JsonRpc.RequestObject: likewise, the member order of the request dict is left out.
- PromptTemplates.IsPositional: a field name is positional only when it is empty or all ASCII digits `0`-`9`, and the digit bound `PY_SSIZE_T_MAX` is that of a 64-bit build. CPython also reads names made of other Unicode decimal digits (such as `{٣}`) as positions and raises `IndexError`, where the model reports a `KeyError` (`MissingKey`).
- Default arguments are not defaults in the model: `summarize`'s `max_chars=200`, `make_upsert_sql`'s `pks=PKS` (the constant `SffdSync.PKS`) and `build_prompt_with_history`'s `results=None` (the `None` of `Option`) are passed explicitly by callers.
- The `db_path` argument and `reset` method used by `MCP_119/tests/test_context_manager.py:10,27-32`. They do not exist in `context_manager.py`. Persistent storage is not part of this model.
- `load_schema`, `fetch_batch` and `main` of `sffd_sync.py`: database introspection, HTTP paging and the write loop.
- The rest of the backend (`main.py`, `database.py`, `logger.py`, `sql_generator.py`, `answer_generator.py`) and the React front end. These are plumbing around the modelled functions, or UI rendering.
- Thread-safety: the source has no locking.
- `"{history}" in template` is decided by the template's fields only for these templates: ones with a `history` field, and ones whose literal texts have no braces (`HistoryFieldText`). That is proved for every template of the table (`TemplateShapes`). For other template texts, `BuildPrompt` still follows the literal substring test.

## Where the tests and the code disagree

The model follows the code.

- `MCP_119/tests/test_model_router.py:10` expects `Qwen2.5-coder-7b` for the task `code`. The code routes an unknown task to `model1`'s `gpt-oss:20b` (`RoutingScenario`).
- `MCP_119/tests/test_model_router_list.py:12-19` expects six models. The code's tables name only `gpt-oss:20b` and `qwen2.5-coder:7b`, besides the test's own preference (`ListScenario`).
- `MCP_119/tests/test_prompt_templates.py:10-11` expects `"Answer the following question: {query}"`. The table has no `phi3-3.8b`, so `load_template` returns `{query}` (`LoadPhi3Hyphen`).
- `MCP_119/tests/test_prompt_context_integration.py:11` builds the context with `db_path`, which the constructor does not take. The rest of that test is modelled with a plain new context (`PromptWithRecordedHistory`).
