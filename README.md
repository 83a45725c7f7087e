# ULi core logic in Dafny

This project models the sequential core of ULi's backend. ULi collects the model catalogues of several OpenAI-compatible upstream providers and stores one record per discovered model. From those records it builds routing configuration for two downstream services: the gpt-load gateway and uni-api.

The model covers five source files:

- **Model-name canonicaliser** (`backend/app/utils/normalization.py`). It trims the name and keeps the text after the last `/`. It then strips end-anchored suffixes: an 8-digit date, an ISO date, `-preview`, `-latest` and a 4-digit year, in that order. Last, it lowercases, collapses `-` runs, strips `-` and collapses whitespace. The same file holds the URL, provider-prefix, version-suffix and provider-name helpers.
- **Catalogue fetcher** (`backend/app/services/api_aggregator.py`). It holds the service's own copy of the canonicaliser and the request URL. It reads the model list out of the three response shapes, and retries a 429, a timeout or a 5xx with back-off `backoff_factor ** retry_count`. It also builds the batch result table and its summary.
- **Routing-config builder** (`backend/app/services/config_generator.py`). For gpt-load it builds one provider entry and one group per enabled model of an enabled provider, an `Aggr-<name>` aggregate for every unified name served by two or more groups, and the redirect table. For uni-api it builds one entry per distinct unified name. It also models the field validator and the backup-then-overwrite protocol of `save_configs`.
- **Model store** (`backend/app/services/model_manager.py`). Upsert is keyed by original name and provider. Rename checks that the display name is unique within its provider. Delete is soft. Provider splitting creates `{source}-{index}` ids. The store also keeps counts and the batch rename/delete bookkeeping.
- **Health monitor** (`backend/app/services/health_monitor.py`). It classifies probes and appends health records. It summarises a batch, and takes the latest-check-per-provider statistics, including the integer mean response time. It also returns a provider's history, newest first and cut at a limit.

### Layout

Shared modules:
- `pystr.dfy` (`PyStr`): the Python string built-ins the code uses, on ASCII. These are `strip`, `lstrip`, `rstrip`, `lower`, `split`/`join`, `endswith` and integer formatting.
- `seqs.dfy` (`Seqs`): first-occurrence de-duplication and counting.
- `json.dfy` (`Json`): JSON-like values for response bodies and configuration documents.
- `options.dfy` (`Options`): an option type.
- `records.dfy` (`Records`): rows of the `api_sources`/`providers` and `models` tables, and the unified name of a model.

The source files map onto modules as follows:
- `normalization.dfy`: all of `normalization.py`.
- `normalization_examples.dfy`: its documented examples and counterexamples.
- `api_aggregator.dfy`: all of `api_aggregator.py`.
- `config_generator.dfy`, `config_properties.dfy`, `config_validation.dfy` and `config_files.dfy`: `config_generator.py`.
- `model_manager.dfy`: `model_manager.py`.
- `health_monitor.dfy`: `health_monitor.py`.

### Modelling choices

- **Pure code** becomes functions; the canonicaliser's rule loop is a fold over the rule list.
- **Code that updates state step by step** becomes classes, one per source class:
  - `ModelManager.Store` holds the three tables as sequences.
  - `HealthMonitor.Monitor` holds the health records.
  - `ConfigFiles.ConfigService` holds the file map.
- **Each method is proved equal to a function of the old state.** The properties are then lemmas about those functions.
- **The generators are imperative.** `generate_gptload_config` and `generate_uniapi_config` are written as loops over the same dictionaries and lists as the code. Each is proved equal to a specification function.
- **External effects are inputs.** These are:
  - the network, as a function from request number to reply;
  - the clock and the new record ids;
  - measured response times;
  - the YAML serialiser.
- **Concurrency is modelled as running the tasks one after another in input order.** The tasks write disjoint result slots unless two sources share an id; then, in the model, the later source in input order wins. In the code it is whichever task finishes last.

### Where the code and its description differ

The model follows the code in each of these places:

- **Canonicalisation is not idempotent.** The rules run once, so `gpt-4-2024-2024` becomes `gpt-4-2024`, and that becomes `gpt-4` on a second pass (`NormalizationExamples.NormalizeNotIdempotent`).
- **The `-` strip runs before whitespace is collapsed.** A result can therefore begin with `-`: `x/ -gpt` becomes `-gpt` (`NormalizationExamples.HyphenNextToSpaceSurvives`).
- **An unrecognised response shape counts as success with an empty model list,** not as a failure.
- **Redirect targets are group names** `{provider}-{idx}-{unified}`, not provider-entry names.
- **`validate_config` checks less than described.** It only checks that keys are present and that the top-level fields are lists. It does not reject dangling redirects or empty values, and `save_configs` does not call it.
- **An unknown source appends no health record.**
- **A timed-out probe's record has no response time,** while the returned result does carry the measured time.

## Model

| member | source | states |
|---|---|---|
| Normalization.NewNormalizer | backend/app/utils/normalization.py:13-28 | An absent or empty custom rule list gives the five default rules in their order: 8-digit date, ISO date, `-preview`, `-latest`, year. A non-empty list is used as given. |
| Normalization.ApplyRulesUnmatched | backend/app/utils/normalization.py:58-59 | When no rule matches the end of the text, the rule loop leaves it unchanged. |
| Normalization.NormalizeShape | backend/app/utils/normalization.py:61-69 | Whatever the rules, `normalize` returns text that is lowercase and has no `--`. The result has no leading or trailing whitespace, and each whitespace is a single space. |
| Normalization.NormalizeIgnoresNamespace | backend/app/utils/normalization.py:50-55 | Namespace prefixes are ignored. For a name `x` without `/` and without surrounding whitespace, `normalize(p + "/" + x) == normalize(x)` for every prefix `p`. |
| Normalization.NormalizeAfterNamespace | backend/app/utils/normalization.py:50-69 | After a namespace, the rules and the final clean-up see exactly the text after the `/`. |
| Normalization.NormalizeNoNamespace | backend/app/utils/normalization.py:50-69 | A name without `/` or surrounding whitespace normalises to what the rules make of it, given that this is already in normal shape. |
| Normalization.NormalizeKeeps | backend/app/utils/normalization.py:47-71 | A name already in normal shape (lowercase, no `--`, no edge `-`, single-spaced, no `/`) that no rule rewrites is its own normal form. |
| Normalization.BatchNormalize | backend/app/utils/normalization.py:73-83 | The map's keys are exactly the given names, and each name maps to its normal form. |
| Normalization.EnsureV1 | backend/app/utils/normalization.py:113-118 | With `u` the URL without its trailing `/` characters, the result is `u` when `u` already ends in `/v1`, and `u + "/v1"` otherwise. Either way it ends in `/v1`. |
| Normalization.NormalizeUrl | backend/app/utils/normalization.py:100-120 | The result is empty exactly when the input is empty. Otherwise it is the input without its trailing `/`, with `/v1` appended unless already there. |
| Normalization.NormalizeUrlIdempotent | backend/app/utils/normalization.py:113-120 | Normalising a URL twice gives the same as normalising it once. |
| Normalization.ExtractProvider | backend/app/utils/normalization.py:123-146 | The result is None exactly when the name has no `/`. Otherwise it is the text before the first `/`. |
| Normalization.RemoveVersionSuffixShape | backend/app/utils/normalization.py:149-175 | The result is a prefix of the name, and the part cut off consists only of `-` and digits. |
| Normalization.RemoveVersionSuffixRemoves | backend/app/utils/normalization.py:168-173 | The name comes back unchanged exactly when it ends in none of `-dddddddd`, `-dddd-dd-dd` and `-dddd`. A name ending in one of them loses at least that suffix: 9, 11 or 5 characters. |
| Normalization.SanitizeProviderName | backend/app/utils/normalization.py:195-218 | The result holds only lowercase word characters and `-`, with no `--` and no `-` at either end. |
| Normalization.SanitizeKeepsWordChars | backend/app/utils/normalization.py:208-216 | With its `-` characters left aside, the result is exactly the word characters of the lowercased name, in order. Every other character is dropped or becomes a `-`. |
| Normalization.SanitizeKeepsIds | backend/app/utils/normalization.py:205-218 | A name that is already an id comes back unchanged: lowercase word characters and `-` only, no `--`, no `-` at either end. |
| NormalizationExamples.CompactDateExample | backend/app/utils/normalization.py:14 | `gpt-4-20240101` normalises to `gpt-4`. |
| NormalizationExamples.IsoDateExample | backend/app/utils/normalization.py:15 | `gpt-4-2024-01-01` normalises to `gpt-4`. |
| NormalizationExamples.OneYearNormalize | backend/app/utils/normalization.py:18 | `gpt-4-2024` normalises to `gpt-4`. |
| NormalizationExamples.TwoYearsNormalize | backend/app/utils/normalization.py:58-59 | Each rule is applied once, so `gpt-4-2024-2024` normalises to `gpt-4-2024`. |
| NormalizationExamples.NormalizeNotIdempotent | backend/app/utils/normalization.py:18 | Some name normalises differently the second time. |
| NormalizationExamples.HyphenNextToSpaceSurvives | backend/app/utils/normalization.py:65-69 | Because `-` is stripped before whitespace is collapsed, `ns/ -gpt` normalises to `-gpt` for every namespace. |
| NormalizationExamples.RemoveVersionSuffixExample | backend/app/utils/normalization.py:162-163 | `claude-3-opus-20240229` loses its date: the result is `claude-3-opus`. |
| NormalizationExamples.ExtractProviderExamples | backend/app/utils/normalization.py:133-137 | `openai/gpt-4` gives `openai`, and `gpt-4` gives None. |
| ApiAggregator.AggregatorNormalizeAgrees | backend/app/services/api_aggregator.py:139-170 | The service's copy agrees with the module-level `normalize_model_name` on every input. Its case-sensitive rules contain no letters. |
| ApiAggregator.CatalogueUrl | backend/app/services/api_aggregator.py:47-55 | With `u` the base URL without its trailing `/`, the request URL is `u + "/models"` when `u` ends in `/v1`, and `u + "/v1/models"` otherwise. Either way it ends in `/v1/models`. |
| ApiAggregator.ModelsFromBody | backend/app/services/api_aggregator.py:73-87 | The model list comes from `data` when that key is present, even alongside `models`. Otherwise it comes from `models`. A bare list is the list itself; any other value gives an empty list. |
| ApiAggregator.Settle | backend/app/services/api_aggregator.py:61-120 | The outcome of a request that is not retried:<br>• success exactly for a 2xx whose body parses and whose model list has a length;<br>• the rate-limit error exactly for a 429;<br>• the timeout error exactly for a timeout;<br>• an HTTP error with the status for any other non-2xx status;<br>• a success carries the model list taken from the body;<br>• a client exception, an undecodable body, or a model list without `len()` gives the unknown error with that exception's text. |
| ApiAggregator.Fetch | backend/app/services/api_aggregator.py:29-120 | A run started at `retry_count`:<br>• sends one request more than it waits, and waits at most `max_retries - retry_count` times;<br>• waits `backoff_factor ** (retry_count + k)` the k-th time;<br>• retries only retryable replies;<br>• stops at a non-retryable one unless the budget ran out;<br>• ends with the outcome of its last reply. |
| ApiAggregator.DefaultBackoff | backend/app/services/api_aggregator.py:26-27 | With the defaults (3 retries, factor 2), a fetch sends at most 4 requests, and its waits are a prefix of 1, 2, 4 seconds. |
| ApiAggregator.FirstAnswerSettles | backend/app/services/api_aggregator.py:67-120 | A non-retryable reply settles the fetch after one request with no wait. |
| ApiAggregator.AlwaysTimingOut | backend/app/services/api_aggregator.py:92-102 | Against a network that always times out, a fetch uses its whole budget and fails with the timeout error. |
| ApiAggregator.RateLimitNeedsFullBudget | backend/app/services/api_aggregator.py:61-68 | The rate-limit failure is reported only after the whole budget is spent, and only when the last reply was a 429. |
| ApiAggregator.ResultOf | backend/app/services/api_aggregator.py:212-217 | A stored entry is:<br>• on success: success with the models and no error;<br>• on failure: the error, with `models == []` and `model_count == 0`;<br>• `model_count` is `len(models)` for a non-empty list. |
| ApiAggregator.BatchResults | backend/app/services/api_aggregator.py:198-228 | The table has at most one entry per source. |
| ApiAggregator.BatchKeySource | backend/app/services/api_aggregator.py:201-212 | Every key of the table is the id of a source that has a base URL. |
| ApiAggregator.BatchCoversSources | backend/app/services/api_aggregator.py:198-238 | With distinct ids and every base URL present, the table has one entry per source, and each entry is the result of that source's own fetch. So `total == success + failed`. |
| ApiAggregator.BatchLastWins | backend/app/services/api_aggregator.py:212 | When sources share an id, the entry is the result of the last such source in input order that has a base URL (the model runs the tasks in input order). |
| ApiAggregator.CountSuccesses | backend/app/services/api_aggregator.py:231 | The loop's count equals the number of successful entries in the table. |
| ApiAggregator.BatchFetchModels | backend/app/services/api_aggregator.py:172-245 | The method fills the table the batch specification describes. The summary's total is the number of sources, success is the number of successful entries, and failed is the table size minus success. |
| Records.Unified | backend/app/services/config_generator.py:96 | A model's unified name is its display name when that is set and non-empty. Otherwise it is its normalised name. |
| Records.EnabledSources | backend/app/services/config_generator.py:60-62 | The enabled providers, taken from the table and including all of them. |
| Records.EnabledModels | backend/app/services/config_generator.py:74-76 | The enabled models, taken from the table and including all of them. |
| ConfigGenerator.GroupByProvider | backend/app/services/config_generator.py:79-81 | Each provider id's bucket is that provider's models, in table order. |
| ConfigGenerator.AppendProviderUnits | backend/app/services/config_generator.py:94-115 | The inner loop appends one provider entry and one group per model of the provider. |
| ConfigGenerator.BuildEntries | backend/app/services/config_generator.py:84-115 | The entry and group lists are those of the units: every enabled provider's models, numbered from 0 per provider. |
| ConfigGenerator.UnitsSound | backend/app/services/config_generator.py:87-95 | Every unit is a model of an enabled provider, at its position among that provider's models. |
| ConfigGenerator.UnitsComplete | backend/app/services/config_generator.py:87-95 | Every model of every enabled provider has a unit. |
| ConfigGenerator.MembersAre | backend/app/services/config_generator.py:122-129 | The group names collected for a unified name are exactly those of the units with that name. |
| ConfigGenerator.GroupProviderModels | backend/app/services/config_generator.py:125-129 | For one provider's models, the loop extends the grouping by name: buckets, and names in first-occurrence order. |
| ConfigGenerator.GroupByUnifiedName | backend/app/services/config_generator.py:122-129 | Each name's bucket holds its group names in discovery order. The keys are exactly the unified names, in first-occurrence order. |
| ConfigGenerator.BuildRedirects | backend/app/services/config_generator.py:132-144 | The aggregate list and redirect table are those of the specification, taken over the names in first-occurrence order. |
| ConfigGenerator.GenerateGptLoadConfig | backend/app/services/config_generator.py:44-156 | The generated gpt-load configuration equals its specification for every snapshot of providers and models. |
| ConfigGenerator.DedupByUnifiedName | backend/app/services/config_generator.py:180-184 | The keys are the distinct unified names in first-occurrence order, and each maps to a model of that name. |
| ConfigGenerator.GenerateUniApiConfig | backend/app/services/config_generator.py:162-207 | The generated uni-api configuration equals its specification. |
| ConfigProperties.NoProvidersEmpty | backend/app/services/config_generator.py:64-71 | With no enabled provider, all four parts of the configuration are empty. |
| ConfigProperties.UnitsCount | backend/app/services/config_generator.py:79-115 | With distinct provider ids, the number of units is the number of models whose provider is among the enabled ones. |
| ConfigProperties.OneEntryPerModel | backend/app/services/config_generator.py:84-115 | There are as many provider entries and groups as enabled models of enabled providers. |
| ConfigProperties.EntryDescribesModel | backend/app/services/config_generator.py:94-115 | Each provider entry comes from an enabled provider and the k-th of its enabled models:<br>• name `{provider}-{k}`, the provider's base URL without trailing `/`, its key, `[original_name]`, enabled;<br>• the group at the same index is `{name}-{unified}`, with `providers [name]`, `fixed_priority` and mapping `{unified: original}`. |
| ConfigProperties.ModelHasEntry | backend/app/services/config_generator.py:87-115 | Every enabled model of an enabled provider has its provider entry and its group. |
| ConfigProperties.RedirectKeysAreServedNames | backend/app/services/config_generator.py:121-144 | The redirect keys are distinct. They are exactly the unified names of enabled models of enabled providers. |
| ConfigProperties.AggregationRule | backend/app/services/config_generator.py:132-144 | The groups serving a redirect key are never empty:<br>• if there are two or more, the redirect points to `Aggr-{name}`, an aggregate with those groups in order and round robin;<br>• if there is one, it points to that group and there is no aggregate for the name. |
| ConfigProperties.AggregatesAreForSharedNames | backend/app/services/config_generator.py:132-141 | Every aggregate is `Aggr-{n}` for a redirect key `n`. Its sub-groups are the two or more groups serving `n`. |
| ConfigProperties.NoDanglingRedirects | backend/app/services/config_generator.py:132-144 | Every redirect target is a generated group or aggregate. Every aggregate member is a generated group. |
| ConfigProperties.EveryGroupReachedOnce | backend/app/services/config_generator.py:132-144 | Following every redirect, directly or through its aggregate, reaches each group exactly once (as multisets). |
| ConfigProperties.UniApiEntryPerName | backend/app/services/config_generator.py:180-203 | The api block is port 8000 on `0.0.0.0`. There is an entry for a name exactly when it is the unified name of an enabled model, whether or not its provider is enabled. |
| ConfigProperties.UniApiEntriesInFirstOccurrenceOrder | backend/app/services/config_generator.py:180-195 | Each entry is `gptload-{u}` at `{url}/proxy/{u}` for its one model `u`. The entries follow the first occurrence of their names. |
| ConfigValidation.ValidateSpec | backend/app/services/config_generator.py:367-427 | The verdict is valid exactly when the error list is empty. A configuration type that is not checked is always valid. |
| ConfigValidation.CheckEntry | backend/app/services/config_generator.py:393-414 | The per-entry loop reports the missing required fields of one entry, in field order. |
| ConfigValidation.CheckEntries | backend/app/services/config_generator.py:393-414 | The entry loop gives the specification's scan, including the exception a non-iterable entry raises. |
| ConfigValidation.ThrowPersists | backend/app/services/config_generator.py:425-427 | Once an entry raises, the later entries do not change the outcome. |
| ConfigValidation.ValidateConfig | backend/app/services/config_generator.py:367-427 | The method returns the specified verdict and errors, and is valid exactly when no error was found. |
| ConfigValidation.ValidIff | backend/app/services/config_generator.py:381-416 | A checked configuration is valid exactly when its list fields are present lists and every provider entry carries the required fields. |
| ConfigValidation.NotIterableProviders | backend/app/services/config_generator.py:425-427 | A `providers` value that cannot be iterated makes validation return false, with the exception text as the only error. |
| ConfigValidation.GptLoadJsonValidates | backend/app/services/config_generator.py:381-400 | Every gpt-load configuration in the generated shape validates. |
| ConfigValidation.UniApiJsonValidates | backend/app/services/config_generator.py:402-414 | Every uni-api configuration in the generated shape validates. |
| ConfigValidation.GeneratedGptLoadValidates | backend/app/services/config_generator.py:146-151 | The output of `generate_gptload_config` validates as `gptload`. |
| ConfigValidation.GeneratedUniApiValidates | backend/app/services/config_generator.py:197-203 | The output of `generate_uniapi_config` validates as `uniapi`. |
| ConfigFiles.PathsDistinct | backend/app/services/config_generator.py:233-258 | The two live paths and the two backup paths are four different paths. |
| ConfigFiles.SaveEffect | backend/app/services/config_generator.py:239-271 | After a save:<br>• both live files hold the new documents;<br>• each live file that existed is copied to its backup;<br>• no backup is written for a missing live file;<br>• every other path is unchanged. |
| ConfigFiles.SaveTwice | backend/app/services/config_generator.py:243-271 | After two saves, the second save's backups hold the first save's documents, and the live files hold the second's. |
| ConfigFiles.ConfigService.constructor | backend/app/services/config_generator.py:26-42 | The service keeps the gateway address and configuration directory it is given. |
| ConfigFiles.ConfigService.Default | backend/app/services/config_generator.py:29-30 | The defaults are `http://localhost:3001` and `/app/config`. |
| ConfigFiles.ConfigService.GenerateUniApi | backend/app/services/config_generator.py:162-207 | The uni-api configuration for the service's own gateway address. |
| ConfigFiles.ConfigService.SaveConfigs | backend/app/services/config_generator.py:213-273 | The file map becomes the two-step backup-then-overwrite of the old map. The method returns the two live paths. |
| HealthMonitor.ProbeRequest | backend/app/services/health_monitor.py:63-74 | The probe URL is the fetcher's request URL: the base URL without trailing `/`, with `/v1` ensured, then `/models`. The header is `Bearer {api_key}`. |
| HealthMonitor.Classify | backend/app/services/health_monitor.py:78-97 | Classification of a probe:<br>• healthy exactly for HTTP 200; timeout exactly for a timeout; never `not_found`;<br>• there is an error message exactly when the probe is not healthy. |
| HealthMonitor.ClassifyErrors | backend/app/services/health_monitor.py:82-97 | The error text is `HTTP {code}` for another status, `请求超时` for a timeout, and the exception's text otherwise. |
| HealthMonitor.CheckHealthEffect | backend/app/services/health_monitor.py:47-115 | An unknown source gives `not_found` with no response time and appends nothing. A known source gets exactly one record appended:<br>• it has the source's id, the clock time and status healthy, unhealthy or timeout;<br>• its response time is missing exactly for a timeout;<br>• the result reports the same status and error. |
| HealthMonitor.SummaryCounts | backend/app/services/health_monitor.py:181-186 | `healthy + unhealthy + timeout <= total`. Equality holds when no result is `not_found`. |
| HealthMonitor.CheckEachEffect | backend/app/services/health_monitor.py:161-176 | Probing the listed sources appends one record per source in order. The k-th result and the k-th new record belong to the k-th source and agree on its status. |
| HealthMonitor.CheckAllSummary | backend/app/services/health_monitor.py:141-193 | With no enabled source, the results are empty, nothing is appended and the summary is all zero. Otherwise:<br>• there is one result per enabled source;<br>• one record is appended per result;<br>• `healthy + unhealthy + timeout == total`. |
| HealthMonitor.MaxCheckedAt | backend/app/services/health_monitor.py:219-226 | A provider's latest time is missing exactly when it has no record. Otherwise it is the largest `checked_at` among its records. |
| HealthMonitor.LatestIn | backend/app/services/health_monitor.py:228-239 | The join keeps exactly the records whose `checked_at` is their provider's latest. |
| HealthMonitor.LatestCovers | backend/app/services/health_monitor.py:219-239 | Every provider with a record has a latest check, and that check is no older than any of its records. |
| HealthMonitor.FailedAreOffline | backend/app/services/health_monitor.py:250-259 | The failure list describes exactly the latest checks that are unhealthy or timed out. Its length is the offline count. |
| HealthMonitor.AverageIsFloorMean | backend/app/services/health_monitor.py:247 | The average is 0 for no values. Otherwise it is the mean rounded down. |
| HealthMonitor.HealthStatisticsFacts | backend/app/services/health_monitor.py:241-259 | `online + offline` is at most the number of latest checks. The failure list has `offline` entries. The average response time is the floored mean over the latest checks that have one, or 0. |
| HealthMonitor.LastCheckIsNewest | backend/app/services/health_monitor.py:261-266 | The last check time is missing exactly when there are no records. Otherwise it is the newest `checked_at` of all records. |
| HealthMonitor.ProviderChecks | backend/app/services/health_monitor.py:302-304 | The provider's records are exactly its rows of the table. |
| HealthMonitor.ByTimeDesc | backend/app/services/health_monitor.py:305 | The ordering is newest first, and it is a permutation of its input. |
| HealthMonitor.InsertSorted | backend/app/services/health_monitor.py:305 | Inserting by time keeps a newest-first list newest first. |
| HealthMonitor.HistoryFacts | backend/app/services/health_monitor.py:302-309 | The history holds only the provider's records, drawn from its rows, newest first. It has `min(count, limit)` entries, and it omits no record newer than its oldest entry. |
| HealthMonitor.Monitor.constructor | backend/app/services/health_monitor.py:23-35 | The timeout is 30 seconds and the concurrency limit is 10; the tables are as given. |
| HealthMonitor.Monitor.CheckApiSourceHealth | backend/app/services/health_monitor.py:37-115 | The records and the result are those of one health check; the sources are unchanged. |
| HealthMonitor.Monitor.CheckAllSources | backend/app/services/health_monitor.py:126-193 | The records and results are those of checking every enabled source in order. The summary counts the results. |
| HealthMonitor.Monitor.GetHealthStatistics | backend/app/services/health_monitor.py:199-280 | The statistics of the current tables. |
| HealthMonitor.Monitor.GetProviderHealthHistory | backend/app/services/health_monitor.py:286-321 | The method returns one history entry per record of the history, in the same order, and changes nothing. |
| ModelManager.ErrorText | backend/app/services/model_manager.py:356-360 | `str(e)` is the message of a `ValueError` and the quoted key of a `KeyError`. |
| ModelManager.KeyIndex | backend/app/services/model_manager.py:48-55 | The lookup finds the first record with the given original name and provider, and finds none exactly when no such record exists. |
| ModelManager.ModelIndex | backend/app/services/model_manager.py:105-107 | The lookup finds the first record with the id, and finds none exactly when no such record exists. |
| ModelManager.ClashIndex | backend/app/services/model_manager.py:114-122 | A clash is another record of the same provider that already shows the new name. None is found exactly when no such record exists. |
| ModelManager.UpsertUpdates | backend/app/services/model_manager.py:57-67 | An existing record is updated in place and returned, and the count is unchanged:<br>• the normalised name changes only when supplied;<br>• the display name changes only when its key is present;<br>• id, key, `enabled` and creation time are kept, and the update time is the clock;<br>• every other record is untouched. |
| ModelManager.UpsertCreates | backend/app/services/model_manager.py:68-85 | Otherwise exactly one new enabled record with the new id and the supplied fields is appended and returned. |
| ModelManager.UpsertRaises | backend/app/services/model_manager.py:46-90 | A `KeyError` is raised exactly when the original name or provider is missing, or when a new record lacks a normalised name. A raise writes nothing. |
| ModelManager.UpsertKeepsKeys | backend/app/services/model_manager.py:47-85 | Upsert keeps record ids unique and keeps at most one record per original name and provider. |
| ModelManager.UpsertTwice | backend/app/services/model_manager.py:47-85 | Repeating an upsert with the same data changes nothing more and returns the same record. |
| ModelManager.RenameUnknown | backend/app/services/model_manager.py:109-111 | Rename returns None and changes nothing exactly when the id is unknown. |
| ModelManager.RenameEffect | backend/app/services/model_manager.py:113-137 | Rename raises `ValueError` exactly when another record of the same provider shows the new name, and a raise changes nothing. Otherwise only that record's display name and update time change, and the renamed record is returned. |
| ModelManager.RenameKeepsUnique | backend/app/services/model_manager.py:113-137 | Rename preserves unique ids, unique keys and per-provider unique display names. |
| ModelManager.DeleteEffect | backend/app/services/model_manager.py:156-171 | An unknown id returns false and changes nothing. A known id returns true and keeps the record, disabled, with only its update time otherwise changed. |
| ModelManager.DeleteTwice | backend/app/services/model_manager.py:156-171 | A second delete returns what the first returned, and the state is that of a single delete at the later time. |
| ModelManager.DeleteKeepsIds | backend/app/services/model_manager.py:164-166 | Delete removes no record and changes no id, name, provider or display name. |
| ModelManager.DeletedAreDisabled | backend/app/services/model_manager.py:273-288 | The deleted count (`total - enabled`) is the number of disabled records. `enabled + deleted == total`. |
| ModelManager.BySource | backend/app/services/model_manager.py:290-305 | Each source with enabled models is listed with its count of enabled models, and only such sources are listed. |
| ModelManager.DeleteStatistics | backend/app/services/model_manager.py:273-288 | Deleting an enabled record moves one count from enabled to deleted. The total and renamed counts are unchanged. |
| ModelManager.UpsertStatistics | backend/app/services/model_manager.py:273-288 | An update keeps the total and enabled counts. A creation adds one to each. |
| ModelManager.RenameStatistics | backend/app/services/model_manager.py:273-288 | Rename keeps the total and enabled counts. A successful rename adds one renamed record when the record had no display name. A failed one changes no count. |
| ModelManager.FreshIndices | backend/app/services/model_manager.py:224-233 | The candidate indexes whose id `{source}-{index}` is not yet a provider, listed completely and in increasing order. |
| ModelManager.SplitNothing | backend/app/services/model_manager.py:197-213 | An unknown source, or one with no enabled models, returns `[]` and adds no provider. |
| ModelManager.SplitCreatesFresh | backend/app/services/model_manager.py:224-257 | For each candidate id that is not taken, split appends one enabled provider that copies the source's address, key and priority. The returned list is exactly the created providers with their models. |
| ModelManager.FreshProvidersDistinct | backend/app/services/model_manager.py:228-243 | The new providers do not clash with each other or with existing ones. |
| ModelManager.FreshProvidersCover | backend/app/services/model_manager.py:228-233 | After a split, every candidate id is a provider. |
| ModelManager.SplitKeepsIdsUnique | backend/app/services/model_manager.py:224-254 | Split keeps provider ids unique. |
| ModelManager.SplitTwice | backend/app/services/model_manager.py:224-257 | Splitting the same source again creates nothing and returns `[]`. |
| ModelManager.BatchRenameCounts | backend/app/services/model_manager.py:335-364 | `len(updated) + len(failed) == len(renames)`. |
| ModelManager.RenameStepEffect | backend/app/services/model_manager.py:336-360 | A request missing its id or name fails without a rename. Otherwise the models are those after `rename_model`. Each request adds at most one updated id. |
| ModelManager.BatchRenameKeepsUnique | backend/app/services/model_manager.py:335-364 | A batch of renames preserves unique ids, keys and per-provider display names. |
| ModelManager.BatchDeleteEffect | backend/app/services/model_manager.py:376-398 | The batch satisfies the following:<br>• `deleted_count + len(failed) == len(model_ids)`;<br>• the failures are exactly the unknown ids, with "model not found";<br>• afterwards a record is enabled exactly when it was before and its id was not in the batch;<br>• nothing else but update times changes. |
| ModelManager.Store.constructor | backend/app/services/model_manager.py:23-30 | The store holds the given tables. |
| ModelManager.Store.CreateOrUpdateModel | backend/app/services/model_manager.py:32-90 | The models table and the result are those of the upsert. The other tables are unchanged. |
| ModelManager.Store.RenameModel | backend/app/services/model_manager.py:92-142 | The models table and the result are those of the rename. The other tables are unchanged. |
| ModelManager.Store.DeleteModel | backend/app/services/model_manager.py:144-176 | The models table and the result are those of the soft delete. The other tables are unchanged. |
| ModelManager.Store.SplitProvidersByModel | backend/app/services/model_manager.py:178-262 | The providers table and the returned list are those of the split. |
| ModelManager.Store.AddSplitProviders | backend/app/services/model_manager.py:224-250 | The loop appends the providers for the fresh candidate indexes and returns their entries. |
| ModelManager.Store.GetModelStatistics | backend/app/services/model_manager.py:264-316 | The statistics of the current tables. |
| ModelManager.Store.BatchRenameModels | backend/app/services/model_manager.py:322-364 | The models table, updated ids and failures are those of the batch rename. |
| ModelManager.Store.BatchDeleteModels | backend/app/services/model_manager.py:366-398 | The models table, deleted count and failures are those of the batch delete. |

## Left out

- The network and the passage of time are inputs.
  - HTTP requests are a function from request number to reply, and health probes are values.
  - `asyncio.sleep` is the list of waits, and `time.time()` is a measured time.
  - `datetime.utcnow()`, `uuid4()` and the `strftime` timestamp are parameters.
- Concurrency (`asyncio.Semaphore`, `gather`) is not modelled. Tasks run one after another in input order, and the concurrency limits are only constants.
- SQL/ORM mechanics are not modelled. Queries are filters over in-memory tables. This drops sessions, commit, rollback and refresh, `scalar_one_or_none` raising on several rows, and the SQL join and grouping behind `models_by_source`.
- `apply_configs` is not modelled: it only probes the two downstream services over the network.
- `yaml.dump` is an opaque function parameter. `os.makedirs`, `os.path.exists` and file reads and writes are a map from paths to text.
- `validate_url` is not modelled: it is a call into `urllib.parse`.
- `encryption.py` is not part of this model.
- Characters are ASCII only. `lower()`, `\w` and `str.split()` are modelled on ASCII, and Unicode case mapping and Unicode whitespace are not.
- Normalization.ApplyRules: an end-anchored `$` is treated as the true end of the string, but Python's `$` also matches just before a final newline. A newline inside a name can thus differ under `normalize`. For `m-2024\n-20240101`, Python's year rule sees `m-2024` before the trailing newline left by the date rule and gives `m`; the model gives `m-2024`.
- Normalization.RemoveVersionSuffix: it does not strip, so a name ending in a newline differs too. Python maps `gpt-4-20240101\n` to `gpt-4\n`; the model leaves the name unchanged.
- Normalization.NewNormalizer: custom rules are limited to fixed-length end-anchored patterns of literal characters and `\d`. Arbitrary regular expressions as custom rules are not modelled; the default rules all have this form.
- The HTTP client's error texts are parameters. This covers `str(e)` of an unexpected exception and the decode error of `response.json()`.
- The generators' re-raise paths after a database failure are not modelled. Nor are the catch-all paths of `check_api_source_health`: a database error gives status `error`, and `not_found` and `error` results carry no `checked_at`.
- Logging is not modelled.
- `isoformat()` of timestamps is not modelled: times are integers.
- HealthMonitor.Average: the mean response time is computed on integers. Python computes `sum / len` in floating point before `int(...)`. The two agree while the sum of the response times is below 2^53. Beyond that, the float division rounds, and a large enough quotient makes the code raise `OverflowError`, which the model does not do.
- A negative `limit` is not modelled (the limit is a `nat`). SQL gives a negative `LIMIT` its own meaning.
- `models_by_name` in `split_providers_by_model` is built and never read, so it is not modelled.
- The returned objects of `batch_rename_models` are the session's live objects, which a later rename in the same batch may still change. The model returns their ids instead.
- One clock value is used for a whole batch; the code reads the clock once per record.
- ConfigGenerator.DedupByUnifiedName: the stored model for a name is only said to have that name; the code keeps the first such model. The stored models are never read again.
- ModelManager.DeleteTwice: the second delete refreshes `updated_at`, so the state equals a single delete at the later time rather than the first delete's state.
