# noodle ingestion core, modelled in Dafny

noodle is a desktop email assistant. It pulls mail out of Outlook. Each message goes through an
ingestion pipeline:

1. The message is saved in a SQLite `emails` table, keyed by `(store_id, entry_id)`.
2. An AI provider (Ollama or an OpenAI-compatible server) extracts structured facts from it.
3. The facts are saved in `extracted_email_facts`.
4. The body is embedded, and the vector is stored in a Qdrant collection under an id derived
   from SHA-256.

A Tauri command layer reads the app settings from an `app_config` table. It picks and
re-creates the AI provider, runs search (a blank query lists recent mail; any other query is a
vector search followed by a relational lookup), and decides whether quitting asks for
confirmation.

This project models that core, one Dafny module per source file:

| module | source | form |
|---|---|---|
| `Errors` | crates/core/src/error/mod.rs | `NoodleError` with its display texts, and a `Result` with failure propagation |
| `JsonValue` | (serde_json) | `Value` with the `Index`/`as_*` accessors the core uses |
| `Types` | crates/core/src/types/mod.rs | the records, and the snake_case names of the enums |
| `Provider` | crates/ai/src/provider/mod.rs | request bodies and URLs, and the decoding of response bodies, for both providers |
| `Schema` | crates/ai/src/schema/mod.rs | the extraction schema as a predicate; `extract_with_repair` as a method |
| `Pipeline` | crates/agent/src/pipeline/mod.rs | the facts mapping as functions; `process_email` as a method that returns its effects |
| `Engine` | crates/agent/src/engine/mod.rs | the initial and delta scans, and the background sync, as loops |
| `Qdrant` | crates/storage/src/qdrant/mod.rs | the stable id; collections and points as a class over a map |
| `Sqlite` | crates/storage/src/sqlite/mod.rs | tables as maps, upserts as functions, the store as a class |
| `App` | crates/ui/src-tauri/src/main.rs | config reads, provider selection, `search_emails`, `save_config`, exit confirmation |

Some things are outside the program. The AI server's answers, the mail fetches, the SQL and
Qdrant failures, the clock and the UUIDs all become parameters, as do the JSON text
parser/renderer and SHA-256. Integers keep their Rust widths where that matters:
- `u64 as i64` on point ids;
- `as u32` on token counts;
- the i64 range of `str::parse::<i64>`.

f32/f64 values are `real`. Timestamps are integers.

## Model

| member | source | states |
|---|---|---|
| Errors.ErrorTextIdentifiesKind | crates/core/src/error/mod.rs:4-22 | each kind but `Other` displays with its own prefix, so two such errors with the same text are the same error: same kind, same message |
| Types.PrimaryTypeNames | crates/core/src/types/mod.rs:64-72 | the snake_case name of every primary type parses back to it, and only that name does |
| Types.IntentNames | crates/core/src/types/mod.rs:74-84 | intent names parse back, and only that name does |
| Types.SentimentNames | crates/core/src/types/mod.rs:92-100 | sentiment names parse back, and only that name does |
| Types.UrgencyNames | crates/core/src/types/mod.rs:102-109 | urgency names (`low`/`medium`/`high`) parse back, and only that name does |
| Types.WaitingOnNames | crates/core/src/types/mod.rs:111-119 | waiting-on names (`me`, `them`, `third_party`, `none`) parse back, and only that name does |
| Types.SeverityNames | crates/core/src/types/mod.rs:121-128 | severity names parse back, and only that name does |
| Types.EntityRoleNames | crates/core/src/types/mod.rs:199-211 | entity-role serde names parse back, and only that name does |
| Types.NamesInjective | crates/core/src/types/mod.rs:64-128 | no two variants of one enum share a stored name, so the text columns identify the variant |
| Types.SentimentFromJsonForms | crates/core/src/types/mod.rs:92-100 | serde reads a unit variant both from its name string and from a `{name: null}` object |
| Provider.FormatRoundTrip | crates/ai/src/provider/mod.rs:29-36 | the tagged `response_format` (`json_object`/`text`) reads back as the same format, and the two tags differ |
| Provider.MessagesRoundTrip | crates/ai/src/provider/mod.rs:14-27 | the messages serialised into a request body read back unchanged and in order |
| Provider.ChatHttpRequest | crates/ai/src/provider/mod.rs:99-263 | Ollama: POST `/api/chat`, requested model else configured else `llama3`, `format` `json` only in JSON mode, `stream` false. OpenAI-compatible: POST `/chat/completions`, bearer exactly when an api key exists, body is the serialised request with `model` always present (`null` when unset). Both carry the messages unchanged |
| Provider.ListModelsHttpRequest | crates/ai/src/provider/mod.rs:73-219 | a GET with no body; it carries a bearer token exactly for an OpenAI-compatible provider with an api key |
| Provider.EmbeddingHttpRequest | crates/ai/src/provider/mod.rs:145-291 | a POST whose body carries the text as `prompt` (Ollama) or `input` (OpenAI-compatible, with the api key as bearer) |
| Provider.DecodeChatAnswers | crates/ai/src/provider/mod.rs:131-260 | a well-formed answer from either server decodes to its content and its two token counts |
| Provider.DecodeChatNeedsStringContent | crates/ai/src/provider/mod.rs:131-255 | decoding fails exactly when the content path holds no string; the failure is an AI error; on success the content is that string |
| Provider.MissingUsageIsZero | crates/ai/src/provider/mod.rs:137-140 | for any answer whose content path holds a string, the decoded usage is zero: for Ollama when both counts are missing, for OpenAI-compatible servers when `usage` is missing or holds neither count |
| Provider.NamesOfEntries | crates/ai/src/provider/mod.rs:87-94 | a list of named entries yields every name in order |
| Provider.NamesOfAppend | crates/ai/src/provider/mod.rs:209-216 | the name extraction distributes over concatenation: entries are dropped or kept in place |
| Provider.DecodeModelsListing | crates/ai/src/provider/mod.rs:73-219 | `models[*].name` (Ollama) and `data[*].id` (OpenAI-compatible) come back in order; a body without the array gives an empty list |
| Provider.DecodeEmbedding | crates/ai/src/provider/mod.rs:145-291 | decoding succeeds exactly when the provider's path holds an array whose every element reads as a number; the embedding is those numbers in order; a failure is an AI error |
| Schema.ValidateCharacterization | crates/ai/src/schema/mod.rs:13-31 | a value is valid exactly when it is an object holding the four required keys: a string `email_type`, a string `summary` of at most 500 characters, a number `confidence` in [0, 1] and a boolean `needs_response`; other keys are unconstrained |
| Schema.IntegerConfidence | crates/ai/src/schema/mod.rs:13-31 | JSON integers count as numbers: a confidence of `0` or `1` passes, while `2` and the string `"1"` fail |
| Schema.RepairPromptCarriesBoth | crates/ai/src/schema/mod.rs:93-104 | the repair prompt contains both the original text and the rejected JSON |
| Schema.ExtractWithRepair | crates/ai/src/schema/mod.rs:47-104 | at most two requests; every Ok value satisfies the schema. A failed call or non-JSON content ends the run with no repair; a valid first answer is returned after one call. An invalid first answer triggers exactly one repair request, carrying the text and the rendered answer; that repair's error, its valid value, or the AI error "Self-repair failed to produce valid JSON" is the result |
| Pipeline.StringsOfAppend | crates/agent/src/pipeline/mod.rs:109-116 | `filter_map(as_str)` distributes over concatenation |
| Pipeline.StringsOfBounds | crates/agent/src/pipeline/mod.rs:109-116 | at most one string per element; each is a string element of the input; an all-string array is kept whole and in order |
| Pipeline.DropsNonStrings | crates/agent/src/pipeline/mod.rs:132-164 | a non-string element is dropped without disturbing its neighbours |
| Pipeline.ActionItemsFollowStrings | crates/agent/src/pipeline/mod.rs:117-131 | one action item per string element, with that string as the task, no owner, no due date and confidence 1.0 |
| Pipeline.MapFactsDefaults | crates/agent/src/pipeline/mod.rs:96-173 | an empty or non-object answer maps to the defaults: `Other`, project `Default`/1.0, `Neutral`, `Medium`, empty texts and lists, `needs_response` false, confidence 0 |
| Pipeline.MapFactsFieldDefaults | crates/agent/src/pipeline/mod.rs:96-173 | for every answer: a missing or unknown `email_type`, `project`, `sentiment` or `urgency` gives Other, Default/1.0, Neutral or Medium, and a known one its value. A non-string summary gives empty text; a non-boolean `needs_response` gives false; a non-number confidence gives 0. A non-array list field gives an empty list, and an array gives its strings |
| Pipeline.UnknownNamesDefault | crates/agent/src/pipeline/mod.rs:98-107 | for every answer whose `sentiment` is one of the prompt's names the enum lacks (`very_negative`, `negative`, `very_positive`), as a string or a unit object, the sentiment is Neutral |
| Pipeline.UnknownEnumValuesDefault | crates/agent/src/pipeline/mod.rs:98-107 | the prompt's own values `very_negative` and `critical`, or a number for `email_type`, fall back to Neutral, Medium and Other |
| Pipeline.ConfidenceNotClamped | crates/agent/src/pipeline/mod.rs:165 | the answer's confidence is copied as is, so a value above 1 stays above 1 |
| Pipeline.KnownEnumValuesKept | crates/agent/src/pipeline/mod.rs:98-107 | known sentiment, urgency and email-type names, as strings or unit objects, are kept |
| Pipeline.ExtractFacts | crates/agent/src/pipeline/mod.rs:57-94 | a provider error is returned unchanged; non-JSON content is an AI error carrying the parser's message; the facts belong to the email and the prompt id |
| Pipeline.ProcessEmail | crates/agent/src/pipeline/mod.rs:30-55 | the steps run in order (save email, extract, save facts, embed, upsert) and stop at the first failure, whose error is returned. The email takes the saved id, the facts carry it, the body text is embedded, and the vector goes under (store_id, entry_id) with an empty payload |
| Engine.ScanCallsOfFolders | crates/agent/src/engine/mod.rs:64-66 | a scan processes the Inbox mail, then the Sent Items mail |
| Engine.Scan | crates/agent/src/engine/mod.rs:62-134 | both folders are asked for, Inbox (6) first and Sent Items (5) second; every fetched mail is processed once, in order; failures are skipped; the scan always succeeds |
| Engine.RunInitialScan | crates/agent/src/engine/mod.rs:62-105 | the scan over the last 90 days |
| Engine.RunDeltaScan | crates/agent/src/engine/mod.rs:107-134 | the scan over the last day |
| Engine.StartBackgroundSync | crates/agent/src/engine/mod.rs:42-60 | one 90-day scan, then a 1-day scan per tick. Tick k fires at 120·k seconds (the first immediately). The mail processed is the initial scan's mail followed by each delta scan's |
| Qdrant.CharUtf8 | crates/storage/src/qdrant/mod.rs:75-76 | one to four bytes per character, and one exactly for ASCII |
| Qdrant.Utf8Append | crates/storage/src/qdrant/mod.rs:75-76 | hashing the two `update`s equals hashing the UTF-8 of the concatenated text |
| Qdrant.FromLeBytesBound | crates/storage/src/qdrant/mod.rs:78-80 | eight little-endian bytes always fit below 2^64 |
| Qdrant.LeBytesRoundTrip | crates/storage/src/qdrant/mod.rs:78-80 | reading bytes little-endian and writing them back restores them |
| Qdrant.LeNumberRoundTrip | crates/storage/src/qdrant/mod.rs:78-80 | writing a number that fits and reading it back restores it |
| Qdrant.StableId | crates/storage/src/qdrant/mod.rs:73-81 | the id is a u64 whose eight little-endian bytes are the first eight bytes of SHA-256 over store id then entry id |
| Qdrant.StableIdOfConcatenation | crates/storage/src/qdrant/mod.rs:73-81 | the id depends only on the concatenation `store_id ++ entry_id` |
| Qdrant.SplitCollision | crates/storage/src/qdrant/mod.rs:73-81 | ("ab","c") and ("a","bc") get the same point id |
| Qdrant.CreateCollection | crates/storage/src/qdrant/mod.rs:45-58 | creation succeeds exactly for a new name and adds an empty cosine collection of that size, leaving the others alone |
| Qdrant.UpsertPoint | crates/storage/src/qdrant/mod.rs:63-71 | succeeds exactly when the collection exists and the vector has its size; it then sets that one id, keeps the collection's size and distance, and changes nothing else |
| Qdrant.UpsertTwice | crates/storage/src/qdrant/mod.rs:63-71 | upserting twice under one id equals upserting the second point once |
| Qdrant.QdrantStore.constructor | crates/storage/src/qdrant/mod.rs:22-34 | the store starts from the server's existing collections |
| Qdrant.QdrantStore.EnsureCollection | crates/storage/src/qdrant/mod.rs:42-61 | an existing collection is left alone. A failed existence check counts as absent and leads to a creation attempt, whose error is returned |
| Qdrant.QdrantStore.EnsureCollections | crates/storage/src/qdrant/mod.rs:36-40 | on success both `emails` and `attachments` exist; new ones are 1536-dimensional cosine collections and existing ones are unchanged. A failure in the `emails` step is that step's error and changes nothing. A failure in the `attachments` step keeps what the `emails` step created and adds nothing more |
| Qdrant.QdrantStore.UpsertEmailVector | crates/storage/src/qdrant/mod.rs:63-71 | the vector and payload are upserted into `emails` under the stable id; any failure is a storage error and leaves the collections unchanged |
| Qdrant.UpsertEmailTwice | crates/storage/src/qdrant/mod.rs:63-81 | saving one email's vector twice leaves one point for it, holding the second vector and payload |
| Sqlite.OneRowPerKey | crates/storage/src/sqlite/mod.rs:75 | in a valid table no two rows share `(store_id, entry_id)` |
| Sqlite.SaveEmailTable | crates/storage/src/sqlite/mod.rs:64-109 | keeps the table valid; returns the row id for the email's key. A known key keeps its id and adds no row, and its row takes the six updated columns from the email. A new key gets a fresh id and a row built from the email. Other rows are untouched |
| Sqlite.InsertedRowKeepsEmail | crates/storage/src/sqlite/mod.rs:70-74 | a newly inserted row holds every column of the email and is keyed by its store and entry ids |
| Sqlite.UpdatedRowColumns | crates/storage/src/sqlite/mod.rs:75-81 | a conflicting save overwrites folder, subject, received_at, body_text, last_indexed_at and hash, and keeps every other column, the key and the id |
| Sqlite.SaveEmailConflict | crates/storage/src/sqlite/mod.rs:75-82 | a repeated save keeps the id and the first row's other columns, and takes folder, subject, received_at, body_text, last_indexed_at and hash from the new email |
| Sqlite.SaveEmailIdempotent | crates/storage/src/sqlite/mod.rs:64-109 | saving the same email twice equals saving it once |
| Sqlite.FactsRowOf | crates/storage/src/sqlite/mod.rs:111-126 | the stored enum texts parse back to the facts' enum values |
| Sqlite.SaveFactsTable | crates/storage/src/sqlite/mod.rs:131-156 | one row per email id; the saved email's row is set and the others are kept |
| Sqlite.SaveFactsTwice | crates/storage/src/sqlite/mod.rs:139-156 | re-saving the facts of an email replaces every column except `created_at`, which keeps its first value |
| Sqlite.SetConfigTable | crates/storage/src/sqlite/mod.rs:367-376 | sets the key's value and timestamp and keeps every other key |
| Sqlite.GetAfterSet | crates/storage/src/sqlite/mod.rs:367-386 | a get after a set returns the value set, and other keys read as before |
| Sqlite.RowsJson | crates/storage/src/sqlite/mod.rs:279-308 | one JSON object per selected row |
| Sqlite.RowsJsonAt | crates/storage/src/sqlite/mod.rs:279-308 | the k-th object renders the k-th row joined with its facts |
| Sqlite.NoFactsGivesNulls | crates/storage/src/sqlite/mod.rs:220-253 | an email without facts renders every facts column as `null` |
| Sqlite.ByIdsAppend | crates/storage/src/sqlite/mod.rs:209-258 | the lookup distributes over concatenated id lists |
| Sqlite.ByIdsSkipsMissing | crates/storage/src/sqlite/mod.rs:229-255 | an unknown id contributes nothing; a known one contributes its row in place |
| Sqlite.ByIdsAllPresent | crates/storage/src/sqlite/mod.rs:209-258 | when every id exists the result has one object per id, in the order asked |
| Sqlite.NewestExists | crates/storage/src/sqlite/mod.rs:270 | a non-empty set of rows has a newest one |
| Sqlite.SelectionStep | crates/storage/src/sqlite/mod.rs:270-271 | taking the newest remaining row keeps the selection newest-first and no older than anything left |
| Sqlite.SelectNewest | crates/storage/src/sqlite/mod.rs:270-271 | returns n distinct rows in descending `received_at`, none older than any row left out |
| Sqlite.SqliteStore.constructor | crates/storage/src/sqlite/mod.rs:22-58 | the store starts with empty tables |
| Sqlite.SqliteStore.SaveEmail | crates/storage/src/sqlite/mod.rs:64-109 | on success the emails table is the upserted one and the id is returned; on a failure nothing changes and a storage error is returned |
| Sqlite.SqliteStore.SaveFacts | crates/storage/src/sqlite/mod.rs:111-183 | on success the facts table is the upserted one; on a failure nothing changes |
| Sqlite.SqliteStore.SetConfig | crates/storage/src/sqlite/mod.rs:367-376 | on success the config holds the new value and timestamp; on a failure nothing changes |
| Sqlite.SqliteStore.GetConfig | crates/storage/src/sqlite/mod.rs:378-386 | the stored value, nothing for an unset key, or a storage error |
| Sqlite.SqliteStore.GetRecentEmails | crates/storage/src/sqlite/mod.rs:260-309 | min(limit, rows) rows (all of them for a negative limit), newest first and none older than a row left out, each joined with its facts; a failure is a storage error |
| Sqlite.SqliteStore.GetEmailsByIds | crates/storage/src/sqlite/mod.rs:209-258 | succeeds exactly when every per-id query succeeds; it then returns the rows of the ids that exist, in the order asked, and otherwise a storage error |
| App.ResolveProvider | crates/ui/src-tauri/src/main.rs:444-475 | Ollama exactly for provider type `ollama`, otherwise OpenAI-compatible with the api key. The URL comes from the type's key or its default; the model is the stored `model_name` |
| App.ProviderTypeDefaultsToOllama | crates/ui/src-tauri/src/main.rs:160-165 | an unset or unreadable provider type selects Ollama at `ollama_url` or `http://localhost:11434` |
| App.UrlSelection | crates/ui/src-tauri/src/main.rs:167-186 | `lemonade` reads `lemonade_url` (default port 8000) and `foundry` reads `foundry_url` (default port 5000). `openai` and unknown types read `ollama_url`, and build an OpenAI-compatible provider |
| App.EndpointKeysDoNotTrigger | crates/ui/src-tauri/src/main.rs:159 | saving `lemonade_url` or `foundry_url` does not rebuild the provider; `provider_type` and `api_key` do |
| App.NatTextValue | crates/ui/src-tauri/src/main.rs:102 | the decimal text of a number reads back as that number |
| App.ParseI64 | crates/ui/src-tauri/src/main.rs:102 | parsing succeeds exactly for an optional sign followed by one or more digits whose value is in the i64 range, and gives that value |
| App.ParseI64RejectsJunk | crates/ui/src-tauri/src/main.rs:102 | a non-digit at the end, or a non-digit non-sign at the front, makes parsing fail |
| App.ParseI64RoundTrip | crates/ui/src-tauri/src/main.rs:102 | every i64 printed in decimal parses back to itself |
| App.ConfigInt | crates/ui/src-tauri/src/main.rs:97-111 | an unset key, a failed read or text that does not parse gives the default; a parsed text gives its value |
| App.ConfigIntReadsText | crates/ui/src-tauri/src/main.rs:97-111 | a stored decimal i64 reads back as that number; stored text ending in a non-digit reads as the default |
| App.SyncDefaults | crates/ui/src-tauri/src/main.rs:97-111 | history_days defaults to 90 and sync_interval to 2 when unset, unreadable or not an integer (`ninety`, `" 5"`); `30` and `-1` are taken as written |
| App.ConfirmExit | crates/ui/src-tauri/src/main.rs:325-331 | quitting skips confirmation exactly when `confirm_exit` is stored as `false` |
| App.TrimStart | crates/ui/src-tauri/src/main.rs:29 | the result is a suffix of the input after a run of whitespace, and does not start with whitespace |
| App.TrimEnd | crates/ui/src-tauri/src/main.rs:29 | the result is a prefix of the input before a run of whitespace, and does not end with whitespace |
| App.TrimEmptyIffBlank | crates/ui/src-tauri/src/main.rs:29 | `query.trim().is_empty()` holds exactly for an all-whitespace query |
| App.AsI64 | crates/ui/src-tauri/src/main.rs:58 | `num as i64` is the i64 congruent to the u64 modulo 2^64 |
| App.PointIdsAppend | crates/ui/src-tauri/src/main.rs:53-62 | the row ids of concatenated results are the ids of each part, in order |
| App.PointIdsOfOne | crates/ui/src-tauri/src/main.rs:53-62 | a point without an id or with a UUID id contributes no row id; a numeric id contributes its i64 cast at its own place |
| App.PointIdsOfNumbers | crates/ui/src-tauri/src/main.rs:53-62 | when every point has a numeric id, the row ids are those numbers cast to i64, in rank order |
| App.HighIdsTurnNegative | crates/ui/src-tauri/src/main.rs:58 | a point id of 2^63 or more becomes a negative row id |
| App.SearchEmails | crates/ui/src-tauri/src/main.rs:23-69 | a blank query embeds nothing and returns min(50, rows) emails, newest first, none older than a row left out. Otherwise the query is embedded, 20 points are asked for, and their numeric ids are looked up as SQLite row ids. Each failure becomes the error's text |
| App.AppState.constructor | crates/ui/src-tauri/src/main.rs:444-477 | the provider is the one the stored config selects |
| App.AppState.SaveConfig | crates/ui/src-tauri/src/main.rs:150-203 | the value is stored. A trigger key rebuilds the provider from the updated config; any other key keeps the provider. A failed write returns its text and changes nothing |
| App.SwitchToLemonade | crates/ui/src-tauri/src/main.rs:159-196 | after saving provider type `lemonade`, the provider is OpenAI-compatible at the stored `lemonade_url` (or its default), with the stored api key and model |

## Left out

- Outlook COM access and the Outlook client are not part of this model. Mail fetches are a parameter (`Engine.Fetch`), and `map_item_to_email` has no body in the repository.
- Credential storage (`creds.rs`) and draft replies (`draft.rs`, the `draft_reply` command) are not part of this model.
- SHA-256 is a parameter of type `seq<Byte> -> Digest`. Its internals are not modelled.
- HTTP transport, connection errors and status codes are not modelled. Requests are values and response bodies are inputs.
- JSON text parsing and rendering (`serde_json::from_str` and `Display`) are parameters.
- `SqliteStorage::new` and `migrate` are not modelled, nor is the SQL engine itself. Tables are maps.
- The Qdrant client is not modelled. The server's collection and point behaviour is a small map model.
- Qdrant `search_emails` and `delete_points` are not modelled. `App.SearchEmails` takes the search results as an input.
- `get_entities`, `get_dashboard_stats`, `save_log` and `get_logs` are not modelled, nor are the logging, UI events, tray and window handling, prompts, graph and stats commands.
- Concurrency is not modelled: the provider lock, the spawned sync task and the async runtime. Calls run one after another.
- Engine.StartBackgroundSync: the endless interval loop is cut after `ticks` delta scans. Missed-tick behaviour of the interval is not modelled.
- Floating point is not modelled. `f32`/`f64` are `real`, so the rounding of `as_f64() as f32` and of embeddings is not captured.
- Timestamps are integers. `Utc::now` and `Uuid::new_v4` are parameters. Timestamps render as JSON numbers rather than RFC 3339 text.
- Qdrant.QdrantStore.UpsertEmailVector: the server's error texts are stand-in constants. A transport fault is a `fault` parameter.
- Qdrant.QdrantStore.constructor: client construction and its error are not modelled. `new` is this constructor followed by `EnsureCollections`.
- Pipeline.ProcessEmail returns the trace of its effects and does not call the stores. The facts record it builds is the pipeline's own (`email_type`, `action_items`, …), not the `EmailFact` that `save_facts` takes, so the two cannot be joined.
- App.SearchEmails: the embedding and the vector search are inputs, so the ranking itself is not modelled.
- Sqlite.SqliteStore.GetRecentEmails: rows with equal `received_at` come in an order SQLite leaves open. The model fixes one such order; its contract states only what holds for every order.
- Engine.Scan: the outcome of each `process_email` is recorded but not related to the mail it came from.
- The `Attachment`, `Entity`, `EntityMention`, `Edge`, `Prompt` and schedule records of the types file are not modelled. No core operation reads them.

Places where the repository's code differs from its own design description. The model follows
the code:

- The extraction pipeline never calls `extract_with_repair`. It parses the first answer directly, and non-JSON content is an AI error (`Pipeline.ExtractFacts`).
- Confidence is copied from the answer without clamping to [0, 1] (`Pipeline.ConfidenceNotClamped`).
- The content hash of an email is never computed by the ingestion path. `hash` is stored as given.
- The default urgency is `Medium`. The prompt's values `very_negative` and `critical` are not enum variants, so they fall back to the defaults.
- `start_sync` reads `history_days` and `sync_interval`, but the scans use fixed 90- and 1-day windows and a 120-second interval. The values never reach them.
- Search ids come from Qdrant's hash-derived point ids, but they are looked up as SQLite row ids. They match no row except by coincidence, and ids ≥ 2^63 become negative.
- Two calls do not match their callees' signatures. The engine calls `get_emails_last_n_days` with three arguments, but the client shown takes one. `start_sync` passes six arguments to a four-argument `SyncManager::new`. The model follows the callers.
- The pipeline's `ChatRequest` has no `model` field in the code. The model gives it none (`None`).
- `EmailType` is not defined in the files shown. Its variants are taken from the taxonomy in the extraction prompt.
