# InsightAI model configuration, call dispatch and model catalog — a Dafny model

This project models two pure cores of InsightAI.

**Per-agent configuration and call dispatch** (`insightai/models.py`):
- `get_best_available_provider` picks a provider from the API keys that are set.
- The default agent table is built from that choice.
- `LLM_CONFIG` (environment variable) and `LLM_CONFIG.json` (file) take precedence over the defaults, as `load_llm_config` and `get_effective_config` implement it.
- The per-agent lookup `get_agent_details`, with `init` and `get_model_name` on top of it.
- `llm_call` and `llm_stream`:
  - the closed provider table;
  - the transport's arguments;
  - the "SQL Generator" response cleanup;
  - the call's own log record: exactly one `write_to_log` per successful call.

**Catalog shaping in the OpenRouter scraper** (`scripts/scrape_models.py`):
- the `/provider/model` link filter and splitter;
- the provider-name normaliser;
- the group-by-provider catalog record with its model count and fixed recommendations;
- the scraping loop, which drops models whose identifier is `"N/A"`.

The environment and the working directory are explicit inputs:
- each API key is a string, and the empty string means unset;
- `LLM_CONFIG` is optional text, paired with what the JSON decoder makes of it;
- `LLM_CONFIG.json` is absent, present but unusable, or decoded into entries.

Provider transports, page fetches and the model-identifier lookup are function arguments. Dispatch returns an outcome together with a trace: the transport invocations and log writes the call performed.

Modules:

| file | module | content |
|---|---|---|
| wrappers.dfy | `Wrappers` | `Option` |
| strings.dfy | `Strings` | the Python `str` operations used: prefix and substring search, `replace`, `split`, ASCII `lower` |
| pydict.dfy | `PyDict` | Python's insertion-ordered `dict` as a key sequence beside a map |
| config.dfy | `LlmConfig` | provider choice, the default table, source precedence, deduplication and lookup |
| sql_cleanup.dfy | `SqlCleanup` | the two regular-expression substitutions of the "SQL Generator" cleanup, as explicit scans |
| dispatch.dfy | `Dispatch` | `llm_call` and `llm_stream` |
| scraper.dfy | `Scraper` | link filter, provider normalisation, catalog record, the scraping run |

### Where the code does not do what its comments say

The model follows the code. Four places where the code and its own comments or names part ways:

1. **Merge.** The docstring of `get_effective_config` (insightai/models.py:63) says it merges the user configuration with the defaults, and the comments at :66-71 announce merge logic for partial user lists. The code does not merge:
   - the dict at :88 is built from `load_llm_config()` again, which already returns the decoded user list alone when there is one;
   - the loop at :91-92 then assigns the same user list over it.

   So a decoded user list replaces the defaults wholesale. It is deduplicated by agent: the last item for an agent wins, and agents keep the order of their first occurrence. An agent the list does not name gets the fallback of :110 (`gpt-4o-mini` on `openai`), not its default. `LlmConfig.PartialOverrideDropsDefaults` proves this. `LlmConfig.PartialOverrideExample` shows the effect: with only a Groq key set, an agent the list leaves out is sent to OpenAI.
2. **Malformed `LLM_CONFIG`.** The comment at :51 ("Try to load from file") sits on the `elif` branch, so the file is only a fallback for an unset or empty variable. A non-empty `LLM_CONFIG` that fails to decode yields the default table at :48-49, and the file is never read (`LlmConfig.EnvDecides`, `LlmConfig.EffectiveConfigCases`).
3. **One model for every agent.** The comment at :22-23 says utility agents get a "cheap" model. Every row of the table at :25-41 uses the same `model` and `provider`; only the token budgets (1000, 2000 or 4000) and one temperature differ (`LlmConfig.DefaultConfig`, `LlmConfig.DefaultTableShape`).
4. **Provider names.** The comment at scripts/scrape_models.py:58 says the mapping brings provider names to InsightAI's conventions, and its key "google-ai-studio" maps to "gemini". The replacement at :56 has already turned "ai-studio" into "gemini", so that key never matches (`Scraper.GoogleAiStudioKeyUnreachable`). "Google AI Studio" becomes "google-gemini", which the dispatch table at insightai/models.py:134-138 does not admit (`Dispatch.CatalogProvidersDispatchable`, `Dispatch.GoogleGeminiUnsupported`).

## Model

| member | source | states |
|---|---|---|
| `LlmConfig.BestProvider` | insightai/models.py:8-16 | The choice is OpenAI, Groq or Gemini. Groq only when the OpenAI key is unset and the Groq key is set. Gemini only when both earlier keys are unset and the Gemini key is set. OpenAI when its own key is set or when no key is set. |
| `LlmConfig.DefaultConfig` | insightai/models.py:18-42 | The default table has 17 entries. Their agents are the known agents in table order. Every entry carries the best available provider and its model, and has a token budget and a temperature. |
| `LlmConfig.DefaultAgentsDistinct` | insightai/models.py:24-42 | The 17 default agent names are pairwise distinct. |
| `LlmConfig.DefaultTableShape` | insightai/models.py:24-42 | Every default budget is 1000, 2000 or 4000. The temperature is 0.1 exactly for "Question Generator" and 0 for every other agent. |
| `LlmConfig.EffectiveConfigCases` | insightai/models.py:44-94 | Four cases. A decoded non-empty `LLM_CONFIG` gives that list deduplicated. A non-empty `LLM_CONFIG` that does not decode gives exactly the default table. Otherwise a decoded file gives its list deduplicated. An absent or unusable file gives the default table. |
| `LlmConfig.EnvDecides` | insightai/models.py:45-49 | When `LLM_CONFIG` is set and non-empty, the effective configuration does not depend on the file at all. |
| `LlmConfig.EmptyEnvIsAbsent` | insightai/models.py:45-52 | `LLM_CONFIG` set to the empty string resolves exactly as if it were unset, whatever its decoding. |
| `LlmConfig.DedupSpec` | insightai/models.py:88-94 | Deduplication keeps each agent once, in first-occurrence order, checked against an independent first-occurrence reference. Each agent carries the last item the list gives for it. |
| `LlmConfig.IndexVals` | insightai/models.py:91-92 | Assigning a list item by item over a dict leaves the dict's other values and maps every listed agent to its last item. |
| `LlmConfig.IndexKeysFromEmpty` | insightai/models.py:88 | Indexing a list into an empty dict orders the keys by first occurrence of each agent. |
| `LlmConfig.IndexTwice` | insightai/models.py:88-94 | Assigning a list over its own index changes neither keys nor values. This is why the second pass in `get_effective_config` adds nothing. |
| `LlmConfig.DedupDistinct` | insightai/models.py:88-94 | A list without repeated agents comes back unchanged. In particular, the default table resolves to itself. |
| `LlmConfig.PartialOverrideDropsDefaults` | insightai/models.py:62-94 | Once `LLM_CONFIG` decodes, an agent the list does not name resolves to the global fallback, not to its default entry. |
| `LlmConfig.PartialOverrideExample` | insightai/models.py:62-94 | The setup: only a Groq key is set, and the user list names only the Planner. Then "Code Generator" resolves to provider "openai", while the default table gives it "groq". |
| `LlmConfig.FindAgent` | insightai/models.py:99-100 | The lookup returns the first index whose agent matches. It returns none exactly when no item matches. |
| `LlmConfig.GetAgentDetails` | insightai/models.py:96-110 | With no matching item, the result is exactly `gpt-4o-mini`/`openai`/2000/0. Otherwise each field comes from the first matching item's details, and each missing field independently takes its fallback value. |
| `LlmConfig.LookupDistinct` | insightai/models.py:99-107 | In a list without repeated agents, looking up an item's agent finds that item. |
| `LlmConfig.DefaultsWhenNoUserList` | insightai/models.py:112-115 | With no user list in the environment or the file, each default agent resolves to the best provider and model, with its own row's budget and temperature. |
| `LlmConfig.GetModelName` | insightai/models.py:96-120 | An agent that no effective item names gets `("gpt-4o-mini", "openai")`, in particular one a decoded `LLM_CONFIG` list leaves out. With no user list anywhere, each default agent gets the best available provider's model and provider. |
| `LlmConfig.InitCases` | insightai/models.py:62-115 | The whole `init` tuple in the same two situations: the fallback for an agent a decoded `LLM_CONFIG` list leaves out; the best provider's model with the agent's own budget and temperature when there is no user list. |
| `PyDict.Put` | insightai/models.py:92 | `d[k] = v` keeps the dict well formed. It updates the value. It keeps the key order for an existing key and appends a new key. |
| `PyDict.ValuesPutExisting` | insightai/models.py:91-94 | Assigning to a key already present replaces its value in its own slot of `values()`; every other value keeps its value and position. |
| `PyDict.ValuesPutNew` | insightai/models.py:91-94 | Assigning to a new key appends its value at the end of `values()`, after all earlier values. |
| `PyDict.FirstOccurrencesSpec` | insightai/models.py:88 | The first-occurrence reference has no repeats and keeps every element. |
| `SqlCleanup.StripFences` | insightai/models.py:157 | The fence substitution only deletes characters. The result is a subsequence of the input. |
| `SqlCleanup.NoBacktickUnchanged` | insightai/models.py:157 | Text without a backtick passes the fence substitution unchanged. |
| `SqlCleanup.PlainPrefixKept` | insightai/models.py:157 | A backtick-free stretch that does not end in whitespace is copied through unchanged, in front of whatever the rest becomes. |
| `SqlCleanup.ClosingFenceRemoved` | insightai/models.py:157 | A line break followed by a closing fence disappears entirely. |
| `SqlCleanup.FencedQuery` | insightai/models.py:157 | A query inside a "```sql" fence comes out alone, without the fences or the line breaks around it. |
| `SqlCleanup.IndentedFence` | insightai/models.py:157 | Whitespace before "```sql" is taken together with the backticks by the second alternative. The result keeps a stray "sql" line in front of the query. |
| `SqlCleanup.DropBeforeComment` | insightai/models.py:158 | Without `--` the text is unchanged. Otherwise the result is the suffix that starts at the first `--`, and no `--` occurs before it. |
| `SqlCleanup.FirstCommentAt` | insightai/models.py:158 | When the first `-` of the text opens a `--`, the prose dropper keeps the text from there. |
| `SqlCleanup.CleanOnlyDeletes` | insightai/models.py:155-158 | The whole cleanup only deletes characters. |
| `SqlCleanup.LeadingProseDropped` | insightai/models.py:155-158 | Backtick-free prose without `-`, in front of a backtick-free query that starts with `--`, is removed exactly. |
| `Dispatch.SupportedProvider` | insightai/models.py:134-141 | The provider table admits exactly "groq", "openai" and "gemini", each under its own name. |
| `Dispatch.ProviderTableRoundTrip` | insightai/models.py:134-138 | Every table entry is admitted under its own name. |
| `Dispatch.LlmCall` | insightai/models.py:129-167 | An unsupported provider gives an error outcome before any effect. Otherwise the transport is called once, with `(messages, model, temperature, max_tokens)` as resolved. If the transport raises, that error escapes and the trace is that one call, with nothing logged. If it returns, the call logs once, to the caller's sink. The record carries the call's agent, chain id and timestamp, the resolved model, the very content returned to the caller, and the reply's messages, token counts and timings. |
| `Dispatch.LlmStream` | insightai/models.py:169-204 | The same as `Dispatch.LlmCall`, with the transport called on `(sink, chain_id, messages, model, temperature, max_tokens, tools)`: a raised error escapes unlogged, a reply is logged once with the call's agent, chain id and timestamp and the reply's fields. The one log write is `llm_stream`'s own record; what the transport itself writes to the sink it receives is outside the trace. |
| `Dispatch.BlockingContent` | insightai/models.py:155-167 | A blocking call returns and logs the cleaned text for "SQL Generator" and the raw transport content for every other agent. |
| `Dispatch.StreamingContentUntouched` | insightai/models.py:187-204 | A streaming call returns exactly the content the transport returned, for every agent. |
| `Dispatch.GoogleGeminiUnsupported` | insightai/models.py:140-141 | A configuration naming provider "google-gemini" is rejected without calling a transport or logging. |
| `Dispatch.BestProviderDispatchable` | insightai/models.py:134-138 | The provider chosen from the API keys is always admitted by the table. |
| `Dispatch.CatalogProvidersDispatchable` | scripts/scrape_models.py:56-65 | The normalised names of "OpenAI" and "Groq" are admitted by the dispatch table. The normalised name of "Google AI Studio" is not. |
| `Scraper.ModelPathSplit` | scripts/scrape_models.py:17-22 | A matching link is `/a/b` with `a` and `b` non-empty and slash-free. `split('/')` yields exactly `["", a, b]`. |
| `Scraper.ModelPathIntro` | scripts/scrape_models.py:17 | Every `/a/b` with `a` and `b` non-empty and slash-free matches the pattern. Together with `Scraper.ModelPathSplit`, this characterises the pattern. |
| `Scraper.FilterLinks` | scripts/scrape_models.py:16-20 | A string is kept exactly when it is a present `href` that matches the pattern. Missing and empty `href`s are dropped. |
| `Scraper.FilterLinksAppend` | scripts/scrape_models.py:18 | Filtering is anchor by anchor, in page order: filtering a concatenation concatenates the results. |
| `Scraper.ScrapeModelLinks` | scripts/scrape_models.py:9-23 | The three lists have equal length. The links are the filtered `href`s. Each link is `"/" + first + "/" + last`, with both parts non-empty and slash-free. |
| `Scraper.GoogleAiStudioKeyUnreachable` | scripts/scrape_models.py:56-65 | No provider name normalises to the mapping key "google-ai-studio": the second replacement leaves no "ai-studio" behind. |
| `Scraper.NormaliseIsKey` | scripts/scrape_models.py:56-65 | The mapping therefore never renames anything. The normalised name is the lower-cased, dashed and replaced key. |
| `Scraper.OpenAIName` | scripts/scrape_models.py:56-65 | "OpenAI" normalises to "openai". |
| `Scraper.GroqName` | scripts/scrape_models.py:56-65 | "Groq" normalises to "groq". |
| `Scraper.GoogleAiStudioName` | scripts/scrape_models.py:56-65 | "Google AI Studio" normalises to "google-gemini". |
| `Scraper.GroupMembership` | scripts/scrape_models.py:52-76 | A provider has a bucket exactly when some row normalises to it. |
| `Scraper.GroupKeys` | scripts/scrape_models.py:67-68 | Providers appear in the order of their first row. |
| `Scraper.GroupBuckets` | scripts/scrape_models.py:52-76 | Each bucket holds exactly its rows' entries, in row order, checked against an independent filter reference. |
| `Scraper.GroupTotal` | scripts/scrape_models.py:81 | The sum of the bucket lengths is the number of input rows. |
| `Scraper.BuildCatalog` | scripts/scrape_models.py:49-99 | `total_models` equals the number of rows. `last_updated` is the clock reading followed by "Z". `recommended` has exactly the four task keys. |
| `Scraper.RecommendedConstant` | scripts/scrape_models.py:83-88 | `recommended` is the same whatever the rows and the clock. |
| `Scraper.RowsInBuckets` | scripts/scrape_models.py:65-76 | Every row's entry is in the bucket of its normalised provider. |
| `Scraper.EntriesFromRows` | scripts/scrape_models.py:70-76 | Every entry in a bucket has that bucket's key as provider, equal id and name, and `available` set, and comes from some row. That row's entry has link `"https://openrouter.ai"` followed by its `href`. |
| `Scraper.PageRowsMembers` | scripts/scrape_models.py:122-128 | A page contributes a row exactly for each of its links whose identifier is not `"N/A"`. The row carries the page's provider name and that identifier. A page never gives more rows than links. |
| `Scraper.PageRowsAppend` | scripts/scrape_models.py:122-128 | Rows are appended link by link, in link order: the rows of a concatenation of links are the concatenated rows. With `Scraper.PageRowsMembers` this fixes the rows exactly. |
| `Scraper.DuplicateLinkTwice` | scripts/scrape_models.py:122-128 | A link listed twice with a real identifier gives two equal rows. |
| `Scraper.TableDataSound` | scripts/scrape_models.py:112-135 | No row has identifier `"N/A"`. Every row's identifier is the one read from its link. Every row's link matches the pattern. Every row comes from a provider page whose fetch succeeded. |
| `Scraper.TableDataComplete` | scripts/scrape_models.py:116-135 | Conversely, every kept link of a page whose fetch succeeded, with an identifier other than `"N/A"`, gives a row with that page's provider name. |
| `Scraper.TableDataAppend` | scripts/scrape_models.py:116-135 | The loop works page by page, in page order: the rows of a concatenation of pages are the concatenated rows. |
| `Scraper.TableDataNoFetch` | scripts/scrape_models.py:116-135 | When every page fetch raises, no row is collected. |
| `Scraper.Main` | scripts/scrape_models.py:101-155 | The run succeeds exactly when some row was found. A catalog is saved exactly then, and it counts every row. |
| `Scraper.MainFindsRow` | scripts/scrape_models.py:116-152 | One kept link with a real identifier on any provider page whose fetch succeeded makes the run succeed and save a catalog. |
| `Scraper.NothingFetched` | scripts/scrape_models.py:116-155 | When every page fetch fails, the run reports failure and saves nothing. |
| `Strings.ReplaceRemovesAll` | scripts/scrape_models.py:56 | `replace` leaves no occurrence of the pattern behind when the replacement can neither start nor extend one. |
| `Strings.SplitJoin` | scripts/scrape_models.py:21-22 | Joining the pieces of `split` on the same separator gives back the string. |
| `Strings.SplitCount` | scripts/scrape_models.py:21-22 | `split` yields one more piece than there are separators. |
| `Strings.IndexOf` | insightai/models.py:158 | The first index at which the pattern occurs, and none exactly when it does not occur. |

## Left out

- Reading the process environment and the file system. They are a single snapshot (`LlmConfig.Sources`). The source reads both three times per resolution: `load_llm_config` at insightai/models.py:64, its own reads at :72-82, and `load_llm_config` again at :88. The model assumes nothing changes between the reads.
- JSON decoding. It is an abstract result beside the text: `None` for malformed JSON, or a list of entries.
  - Every entry is assumed to have an `agent` key; the source raises otherwise.
  - A JSON value that is not a list of objects is not modelled.
  - A detail field given as JSON `null` is treated like a missing field, whereas the source would return `None` for it.
- LlmConfig.GetAgentDetails: does not model a `details` value that is `null` or not an object. The source raises `AttributeError` on it at insightai/models.py:101-103; the model has no such item. An item without a `details` key gets the per-field fallbacks, as in the source.
- LlmConfig.FindAgent: does not model an `agent` value that is not a string. In the source an item with `"agent": null` matches a call made without an agent (the default `agent=None` of `llm_call` and `llm_stream`, :129 and :169). In the model every item's agent is a string, so a call without an agent always gets the fallback.
- Floating-point values (temperature, elapsed time, tokens per second) are `real` values carried through without arithmetic.
- Dispatch.LlmStream: does not model log writes made by a streaming transport. `llm_stream` hands the log-and-call manager to the transport (insightai/models.py:187-189), which may write to it, and the transports are outside this model. The trace records only the `write_to_log` of `llm_call` and `llm_stream` themselves, so the "one log write" of the contract counts that record alone.
- Dynamic module loading (`try_import`, `getattr`) and the provider transport modules. These modules are not part of this model. A transport is an abstract function from provider and request to a returned 7-tuple or a raised error. A transport that returns a tuple of the wrong length is not modelled.
- The `time.strftime` timestamp of a call and the `datetime.utcnow()` reading of the catalog are parameters.
- `Strings.Lower`: `str.lower()` is modelled for ASCII letters only.
- `SqlCleanup.IsSpace`: this is the set of characters Python's `str.isspace()` accepts. The Unicode database is not consulted beyond that set.
- Network and HTML work in the scraper is a function argument from URL to the page's anchor `href`s, with `None` when the fetch raises. This covers `requests.get`, BeautifulSoup, and the retry-and-sleep loop of `extract_model_identifier`. The identifier lookup is another function argument, which returns `"N/A"` when every attempt failed.
- Scraper.DuplicateLinkTwice: the identifier lookup is a pure function of the link, so within one run it gives the same answer every time it is asked about the same link. The source calls `extract_model_identifier` once per listing (scripts/scrape_models.py:124), each call a fresh request with retries (:27-47), so two listings of one link could yield different identifiers, or one `"N/A"`. The lemma's "two equal rows" relies on that assumption; without it, the source promises only one lookup and at most one row per listing.
- Writing `models.json`, printing, and the `tabulate` summary.
- insightai/output_manager.py: terminal and notebook rendering, with no behaviour beyond display.
- The remote catalog loader, recommended-model selection and `detect_available_providers` are not part of this model; their source is not present.
- setup.py (packaging metadata) and example.py (a usage script).
