# RentPilot — a Dafny model of its deterministic core

RentPilot is a rental-affordability assistant. It has four parts:

- **Tools.** Four small HTTP tools answer questions about a rent dataset:
  - `get_rent_data`: a city's median rent;
  - `get_neighbourhood_stats`: per-neighbourhood medians, transit scores and distances;
  - `suggest_neighbourhoods`: filtered and scored neighbourhood recommendations;
  - `evaluate_rent_affordability`: a listing compared with the city median and with income.
- **Dataset provider.** All four tools read a snapshot through one provider, which caches the snapshot per process.
- **Policy router.** A keyword-based router classifies the user's text into an intent and calls the tools.
- **Orchestrator.** An orchestrator around a hosted language model does four things:
  - parses `:: key=value` arguments from the query;
  - merges preference defaults;
  - extracts JSON objects from model output;
  - checks the final answer locally.

  A ledger records each interaction and step as JSON lines, optionally mirrored to an object store.

Two offline scripts build the dataset:
- one merges per-city files;
- one finds zones by name and pairs them with their one-bedroom medians.

The model has one Dafny module per source file, plus shared modules:
- `Wrappers`: `Option` and `Result`.
- `Strings`: ASCII lower-casing, title-casing, stripping, substring search and splitting.
- `PyJson`: JSON values, including a float that may be NaN, Python truthiness and `float()` conversion of signed decimal numerals and "nan".
- `Dicts`: insertion-ordered dicts as sequences of pairs.

Forms:
- Pure helpers are functions.
- Most loops of the source are methods proved equal to a specification function. Three first-match searches are recursive functions only: the nested loops of `find_zone_like` (`TorontoAliases.FindZoneLike`), the loop of `guess_city_from_name` (`MergeCmhc.GuessCity`) and the city loop of `_auto_args_from_text` (`AgentBedrock.FirstCity`).
- The dataset cache and the ledger are classes whose methods update their fields.

Outside effects are parameters:
- the model calls, regular expressions, `json.loads`, and the lenient JSON parser;
- the clock, fresh identifiers, and the outcome of each file or network write.

## Model

| member | source | states |
|---|---|---|
| HousingData.DatasetCache.Load | providers/housing_data.py:18-35 | A cached snapshot is returned without any read. In live mode with a URL, a successful remote fetch is cached; a failed one falls back to the local file. Otherwise the local file is read and cached. |
| HousingData.CityKeyIdempotent | providers/housing_data.py:37-38 | Normalising a city key twice equals normalising it once. |
| HousingData.NormalizeProp | providers/housing_data.py:52 | A missing or empty property type becomes `1bed`; the result is never empty. |
| HousingData.GetCityObj | providers/housing_data.py:47-49 | The city found is the record under the normalised key, and it is non-empty. No record means the key is absent or its object is empty. |
| HousingData.FiniteValue | providers/housing_data.py:56-60 | A value is returned exactly when `float()` converts the cell to a finite number, and it is that number. |
| HousingData.GetCityMedian | providers/housing_data.py:51-60 | A median exists iff the city exists and its `medians` cell for the normalised type converts to a finite float. It is that float. |
| HousingData.ListNeighbourhoods | providers/housing_data.py:62-66 | An unknown or empty city has no rows; otherwise the rows are the city's `neighbourhoods`, or none. |
| HousingData.GetNeighbourhoodMedian | providers/housing_data.py:68-74 | A row median exists exactly when the cell under the normalised key converts to a finite float, and it is that float. |
| HousingData.RoundHalfEven | providers/housing_data.py:84 | Python's `round` lands within 0.5 of its argument. |
| HousingData.NormalizeTransit | providers/housing_data.py:76-84 | None iff `float()` fails or gives NaN. Otherwise an integer in [0, 100] within 0.5 of the clamped value. |
| HousingData.GetNeighbourhoodTransit | providers/housing_data.py:86-90 | Always in [0, 100]. It is the normalised row value, or the default clamped to [0, 100] when normalisation fails. |
| HousingData.NormalizeTransitKeepsScores | providers/housing_data.py:76-84 | An integer score already in [0, 100] is returned unchanged. |
| HousingData.CityMedianDefaultsToOneBed | providers/housing_data.py:51-52 | An empty or missing property type looks up the same median as `1bed`. |
| HousingData.CityMedianNormalisesKeys | providers/housing_data.py:37-56 | Median lookups ignore the case of the property type and the spelling of the city key. |
| GetRentData.MedianRowsMembers | lambdas/get_rent_data.py:49-55 | A neighbourhood entry is listed iff some row has that name and a median for the type. |
| GetRentData.MedianRowsSource | lambdas/get_rent_data.py:49-55 | Every listed entry comes from a row with that name and a median for the type. |
| GetRentData.MedianRowsListed | lambdas/get_rent_data.py:49-55 | Every row with a median for the type is listed with that median. |
| GetRentData.CollectMedians | lambdas/get_rent_data.py:49-55 | The loop builds exactly the specified neighbourhood list. |
| GetRentData.Handle | lambdas/get_rent_data.py:12-60 | 500 without a dataset, then 404 for an unknown city, then 400 for a type without a median. On 200, the reply carries that median and the normalised city and type. Neighbourhoods are present iff `include_neighbourhoods` is truthy, and then they are the specified list. |
| NeighbourhoodStats.StatRows | lambdas/get_neighbourhood_stats.py:49-59 | No more rows than neighbourhoods, and every transit score lies in [0, 100]. |
| NeighbourhoodStats.StatRowsMatchMedianRows | lambdas/get_neighbourhood_stats.py:49-59 | The stats rows have the same names, medians and order as the rent-data neighbourhood list. |
| NeighbourhoodStats.StatRowsSource | lambdas/get_neighbourhood_stats.py:49-59 | Each stats row comes from a neighbourhood with a median for the type: its name and median, its transit score normalised with default 0, and its distance as `float()` reads it, 0.0 when missing or unconvertible. |
| NeighbourhoodStats.CollectRows | lambdas/get_neighbourhood_stats.py:49-59 | The loop builds exactly `StatRows`. |
| NeighbourhoodStats.Handle | lambdas/get_neighbourhood_stats.py:40-70 | 500 without a dataset, 404 for an unknown city. Otherwise 200 with the normalised city and type and the specified rows, each with transit in [0, 100]. |
| SuggestNeighbourhoods.Clamp | lambdas/suggest_neighbourhoods.py:20-21 | The result lies in [lo, hi] and is the value itself when already inside. |
| SuggestNeighbourhoods.AffordabilityComponent | lambdas/suggest_neighbourhoods.py:23-28 | In [0, 1]. It is 0 for a non-positive target and 1 when the ratio is at or below a positive target. |
| SuggestNeighbourhoods.AffordabilityAntitone | lambdas/suggest_neighbourhoods.py:23-28 | A higher rent-to-income ratio never raises the component. |
| SuggestNeighbourhoods.DistanceComponent | lambdas/suggest_neighbourhoods.py:30-34 | In [0, 1] for non-negative distances. It is 0 beyond the maximum or for a non-positive maximum, and 1 at distance 0. |
| SuggestNeighbourhoods.DistanceAntitone | lambdas/suggest_neighbourhoods.py:30-34 | A farther neighbourhood never scores a higher distance component. |
| SuggestNeighbourhoods.Configure | lambdas/suggest_neighbourhoods.py:58-73 | Monthly income is the given annual income, or 80000, over 12. The maximum distance is the given one, or 15, and never negative. The minimum transit is the given value clamped to [0, 100] and truncated: 65 when absent, 0 when unconvertible. The target is the given ratio, or 0.30. The `_why` transit threshold is the given value truncated, or 0. The price reference is the listing, else the budget cap, else the target share of monthly income. |
| SuggestNeighbourhoods.RowDistance | lambdas/suggest_neighbourhoods.py:86 | The distance used is never negative. |
| SuggestNeighbourhoods.MakeWhy | lambdas/suggest_neighbourhoods.py:36-47 | "Cheaper by" iff the rent is below the reference. The transit note appears iff the raw transit meets the requested minimum. "At or below" iff the ratio is within the target. |
| SuggestNeighbourhoods.Evaluate | lambdas/suggest_neighbourhoods.py:80-110 | A row is kept iff it has a median, is within the distance, meets the transit floor and is within the target ratio. A kept row carries the row's name, median, normalised transit score and non-negative distance, the median minus the price reference truncated toward zero, a ratio within target, and the weighted score of its components. |
| SuggestNeighbourhoods.WeightedBound | lambdas/suggest_neighbourhoods.py:95-98 | With non-negative weights and components in [0, 1], the score lies between 0 and the sum of the weights. |
| SuggestNeighbourhoods.SurvivorScore | lambdas/suggest_neighbourhoods.py:91-98 | Every kept row has full affordability when the target is positive. Its score is bounded by the weights, and lies in [0, 1] under the default weights. |
| SuggestNeighbourhoods.PassesMonotoneInMaxDist | lambdas/suggest_neighbourhoods.py:88 | Raising the maximum distance never rejects a row that passed. |
| SuggestNeighbourhoods.CandidatesMembers | lambdas/suggest_neighbourhoods.py:79-110 | The candidate list holds exactly the evaluations of rows that pass the filters. |
| SuggestNeighbourhoods.CandidatesCount | lambdas/suggest_neighbourhoods.py:79-110 | There are as many candidates as rows that pass the filters. |
| SuggestNeighbourhoods.MaxDistMonotone | lambdas/suggest_neighbourhoods.py:88 | Raising the maximum distance never shrinks the candidate list. |
| SuggestNeighbourhoods.CollectCandidates | lambdas/suggest_neighbourhoods.py:79-110 | The filter-and-score loop builds exactly `Candidates`. |
| SuggestNeighbourhoods.InsertPermutes | lambdas/suggest_neighbourhoods.py:112 | A stable insertion adds exactly the inserted entry. |
| SuggestNeighbourhoods.InsertSorted | lambdas/suggest_neighbourhoods.py:112 | Inserting into a score-descending list keeps it descending. |
| SuggestNeighbourhoods.SortByScoreCorrect | lambdas/suggest_neighbourhoods.py:112 | The sort yields a score-descending permutation of the candidates. |
| SuggestNeighbourhoods.SortByScoreStable | lambdas/suggest_neighbourhoods.py:112 | The sort is stable: entries with equal scores keep their dataset order. |
| SuggestNeighbourhoods.RecommendShape | lambdas/suggest_neighbourhoods.py:112-113 | At most three recommendations, descending, a prefix of the sorted candidates. They are empty iff no row passes the filters. |
| SuggestNeighbourhoods.NoCandidatesIff | lambdas/suggest_neighbourhoods.py:79-113 | The candidate list is empty iff no row passes the filters. |
| SuggestNeighbourhoods.RecommendSound | lambdas/suggest_neighbourhoods.py:79-113 | Every recommendation comes from a row of the city that passes all filters. |
| SuggestNeighbourhoods.Handle | lambdas/suggest_neighbourhoods.py:58-127 | 500 without a dataset, 404 for an unknown city, else the top three. A `reason` is present iff there are none, and it is `no_neighbourhood_passed_filters`. |
| EvaluateAffordability.MakeVerdict | lambdas/evaluate_rent_affordability.py:75-96 | Always one of the seven verdict strings. |
| EvaluateAffordability.MakeVerdictIsTable | lambdas/evaluate_rent_affordability.py:75-96 | The rule chain equals a table indexed by market position and target position. |
| EvaluateAffordability.ContradictoryCornersAreNeutral | lambdas/evaluate_rent_affordability.py:85-96 | Above market with a low ratio, or below market with a high ratio, falls through to the neutral verdict. |
| EvaluateAffordability.Evaluate | lambdas/evaluate_rent_affordability.py:45-70 | 400 iff listing, median or income is missing or not positive. Otherwise the ratio times monthly income is the listing, and the median plus delta times median is the listing. The verdict is made with target 0.30 by default. |
| EvaluateAffordability.AboveMedianVerdict | lambdas/evaluate_rent_affordability.py:60-77 | A listing more than 2% above the median is flagged above market. |
| Policy.ClassifyIntent | policy.py:19-31 | Always one of the five intents. |
| Policy.ExplainTakesPriority | policy.py:19-31 | A text asking "what is rti" is an explanation, although it contains the affordability keyword `rti`. |
| Policy.ClassifyIgnoresCase | policy.py:19-31 | Classification does not depend on letter case. |
| Policy.NeighStatsNeedsTransit | policy.py:19-31 | The transit-statistics intent holds iff the text mentions transit and no keyword of an earlier rule. |
| Policy.FillDefaults | policy.py:33-36 | Adds `property_type` = `1bed` only when absent; every other key is unchanged. |
| Policy.Resp | policy.py:16-17 | The response object has exactly the keys plan, actions, verify and answer, holding the given values. |
| Policy.CityRentBranch | policy.py:66-79 | Always a four-key response with the city-rent plan. |
| Policy.NeighStatsBranch | policy.py:81-93 | A four-key response with the stats plan, unless `len` of the neighbourhoods raises. |
| Policy.AffordabilityBranch | policy.py:95-119 | Always a four-key response with the affordability plan. |
| Policy.SuggestBranch | policy.py:121-139 | A four-key response with the suggest plan, unless `len` of the recommendations raises. |
| Policy.DecideAndAct | policy.py:50-142 | Every response has the four keys. The fallback plan is unreachable, because classification always yields a handled intent. |
| Policy.MissingCityAsks | policy.py:55-59 | A city-dependent intent without a city asks for one: no actions, a `missing_city` failure, and no tool is consulted. |
| Policy.AffordabilityNeedsInputs | policy.py:95-112 | Without a listing price or income the evaluator is never called and the verify fails. With a given median, no tool runs at all. |
| Policy.CityRentFailureTagged | policy.py:66-73 | A failed median lookup gives a failed verify tagged `tool_failed`. |
| Policy.NeighStatsFailureTagged | policy.py:81-88 | A failed stats lookup gives a failed verify tagged `tool_failed`. |
| Policy.SuggestFailureTagged | policy.py:121-131 | A failed suggestion call gives a failed verify tagged `suggest_failed`. |
| Policy.MedianFetchFailureTagged | policy.py:95-105 | A failed median fetch in the affordability flow is tagged `failed_to_get_city_median`. |
| Policy.AffordabilityOutcome | policy.py:95-119 | With a truthy listing price, income and median (given, or looked up with status 200), the evaluator gets that median. The actions are the lookup, if one was made, then the evaluation. A failure is tagged `afford_failed`; a success summarises the evaluator's verdict. |
| Policy.MedianFalsyNeverEvaluates | policy.py:95-109 | A falsy median (given with no city, or returned by a successful lookup) never reaches the evaluator. The reply asks for the missing inputs, after the lookup action if one was made. |
| Policy.RouteAffordability | policy.py:50-53 | The affordability intent always reaches its branch, with defaults filled, whether or not a city is given. |
| Policy.RouteWithCity | policy.py:50-58 | With a truthy city, the city-rent, statistics and suggest intents reach their own branches. |
| Policy.AffordabilityBranchMissing | policy.py:95-112 | Without a truthy listing price or income, the branch does not depend on the evaluator and its verify fails. With a truthy median it is exactly the missing-inputs response. |
| Policy.AffordabilityBranchEvaluates | policy.py:98-119 | Once the evaluator is reached, with the median given or looked up, the branch records the lookup, if any, then the evaluation. A failure is tagged `afford_failed`; a success summarises the verdict. |
| Policy.AffordabilityBranchNoMedian | policy.py:98-109 | A falsy median, given with no city or returned by a successful lookup, makes the branch independent of the evaluator; it is the missing-inputs response after the lookup, if any. |
| AgentBedrock.FindPrefsBlob | agent_bedrock.py:117-119 | A found `prefs=` blob is braced, lies on one line and occurs in the tail. |
| AgentBedrock.FindPrefsBlobComplete | agent_bedrock.py:117-118 | When a match starts anywhere at or after the search position, the search finds a blob. |
| AgentBedrock.FindPrefsBlobLeftmost | agent_bedrock.py:117-118 | The blob found is the match at the leftmost position that has one, as `re.search` returns. |
| AgentBedrock.BlobShape | agent_bedrock.py:117-118 | `prefs={` followed by a `}` later on the same line is a match at that position. |
| AgentBedrock.TokenValue | agent_bedrock.py:139-144 | A float iff the token is non-empty, only digits and dots, with no two dots and some digit; the float is what `float()` reads from the token. Anything else stays the token's text. |
| AgentBedrock.ParseTokens | agent_bedrock.py:127-144 | The token loop equals applying the tokens left to right. |
| AgentBedrock.ParseInlineArgs | agent_bedrock.py:107-146 | Without `::` the query is the stripped text and there are no args. Otherwise the head is stripped, and the args are the prefs blob followed by the tail tokens. |
| AgentBedrock.ApplyTokenOther | agent_bedrock.py:127-144 | A token naming another key leaves a key unchanged. |
| AgentBedrock.ApplyTokenNamed | agent_bedrock.py:127-144 | A token naming a key sets it to the token's value. |
| AgentBedrock.LastTokenWins | agent_bedrock.py:127-144 | A key's value comes from the last token that names it. |
| AgentBedrock.UnnamedKeyKept | agent_bedrock.py:127-144 | A key that no token names keeps its earlier value (presence and value). |
| AgentBedrock.SettingOfKey | agent_bedrock.py:127-144 | For a key other than `prefs`, a token assigns to it iff the token names it, with the token's value. |
| AgentBedrock.LastAssignmentWins | agent_bedrock.py:127-144 | After the last assignment to a key, the key holds the value assigned there. |
| AgentBedrock.UnassignedKept | agent_bedrock.py:127-144 | Without an assignment to a key, the key keeps its presence and value. |
| AgentBedrock.TokenWithoutEqualsIgnored | agent_bedrock.py:128-129 | A token without `=` changes nothing. |
| AgentBedrock.FirstCity | agent_bedrock.py:153-157 | The first listed city named in the text, with no earlier one named; none only if no city is named. |
| AgentBedrock.AutoArgsFromText | agent_bedrock.py:148-165 | Explicit city and type win. A missing city comes from the first named city; a missing type comes from the patterns. No other key is added or changed. |
| AgentBedrock.QuebecFound | agent_bedrock.py:153-157 | "quebec city" in the text with no earlier city yields "Quebec City". |
| AgentBedrock.MergedPrefs | agent_bedrock.py:176-186 | A key survives iff a non-null default or a user value keeps it. A user value wins over a default. |
| AgentBedrock.MergedPrefsOverlay | agent_bedrock.py:176-186 | A non-null user value always wins. A user `null` removes a defaulted key. A null default never appears. |
| AgentBedrock.CopyDefaults | agent_bedrock.py:176-179 | The loop copies exactly the non-null defaults. |
| AgentBedrock.OverlayUser | agent_bedrock.py:180-185 | The overlay loop: a user key is set, except that a user `null` deletes a key already present. Keys absent from the user prefs are kept. |
| AgentBedrock.NormalizePrefs | agent_bedrock.py:167-186 | It fails iff the user prefs are neither falsy nor an object after lenient parsing. Otherwise `prefs` is replaced by the merge. |
| AgentBedrock.UpstreamVerify | agent_bedrock.py:191-246 | The upstream verify block, else `{"ok": true}`; always truthy. |
| AgentBedrock.HintRules | agent_bedrock.py:216-227 | At most three relaxation hints, in rule order: distance before transit before the ratio target, so `hints[:2]` keeps the earliest rules. |
| AgentBedrock.HintsRelax | agent_bedrock.py:216-227 | Each hint loosens its constraint, and only at the rule's threshold. |
| AgentBedrock.HintPresence | agent_bedrock.py:216-227 | A hint for a field appears iff its value is a number at the rule's threshold. |
| AgentBedrock.LocalVerify | agent_bedrock.py:189-246 | Non-strict mode passes the upstream verify through. Raising happens only in strict mode. A suggest action without recommendations gives "no match", with the first two hints in rule order (all of them when fewer) and none when hints are off. Any other result is flagged far above target iff the sanity rule holds, and otherwise passes the upstream verify through. |
| AgentBedrock.FarAboveIsHighRti | agent_bedrock.py:239-241 | With a positive income, the sanity rule is the same as a rent-to-income ratio above 1.25 times the target. |
| AgentBedrock.VerdictJson | agent_bedrock.py:228-242 | Failed verdicts carry `ok: false`. A no-match verdict lists its reason first, followed by one text per hint. |
| AgentBedrock.ScanFrom | agent_bedrock.py:330-344 | A found span starts with `{` at or after the start, ends at the `}` closing it, and is valid JSON. |
| AgentBedrock.ScanFromFirst | agent_bedrock.py:330-344 | No earlier `{` starts a balanced object that is valid JSON. |
| AgentBedrock.ExtractFirstJson | agent_bedrock.py:310-345 | Empty text gives none. A result is braced, valid JSON, and a substring of the stripped, unfenced text. |
| AgentBedrock.MatchBrace | agent_bedrock.py:332-338 | The depth-counting loop finds exactly the closing brace of the object starting at `s`. |
| AgentBedrock.ScanObjects | agent_bedrock.py:330-345 | The outer loop returns the object the specified scan picks. |
| AgentBedrock.ExtractFirstJsonScan | agent_bedrock.py:310-345 | The loop-based extractor agrees with `ExtractFirstJson`. |
| AgentBedrock.PromoteRecs | agent_bedrock.py:455-461 | Only the answer's recommendations change, and only when the model omitted them while the tool had some. |
| AgentBedrock.PromotedRecsNeverNoMatch | agent_bedrock.py:455-464 | After promotion of non-empty tool recommendations, the local check never reports "no match". |
| AgentBedrock.FinishPack | agent_bedrock.py:455-494 | It fails iff the local check raises. Otherwise the keys are the pack's plus verify and meta, verify is the verdict, and meta is kept when present. |
| Ledger.SessionOrFresh | ledger.py:48 | A non-empty session id is kept; otherwise the fresh one is used. |
| Ledger.MirrorKey | ledger.py:97 | The object key is prefix, session id, `/`, timestamp and `.json`, in that order. |
| Ledger.MirrorStatusOf | ledger.py:89-103 | The mirror is ok iff it is off or the upload succeeded. A URI is present iff it uploaded; an error is present iff not ok. |
| Ledger.LocalStatusOf | ledger.py:58-67 | The local write is ok iff local writing is off or the append succeeded. A path is present iff it was written. |
| Ledger.EntryStatusOf | ledger.py:58-77 | `ok` is the local status alone. A mirror success adds its URI; a failure adds a non-empty error. |
| Ledger.MirrorNeverFailsEntry | ledger.py:69-77 | An entry fails iff the enabled local write fails, whatever the mirror does. |
| Ledger.EntryRecord | ledger.py:46-57 | The record copies plan, actions, verify and answer from the result, or null. |
| Ledger.Ledger.WriteEntryS3 | ledger.py:89-103 | One object is stored iff mirroring is on and the upload succeeds. The local lines are unchanged. |
| Ledger.Ledger.WriteEntry | ledger.py:34-77 | A line is appended iff local writing is on and succeeds, and mirrored likewise. The status is the merge, and it fails iff the local write fails. |
| Ledger.Ledger.WriteStep | ledger.py:105-141 | The step record is appended and mirrored under the same rules; both statuses are returned. |
| TorontoAliases.ZonesOf | tools/patch_toronto_aliases.py:22-23 | It succeeds iff every item is an object; names are unique. |
| TorontoAliases.ZoneMapOf | tools/patch_toronto_aliases.py:22-23 | A missing list gives an empty map. A list goes through `ZonesOf`. A non-object raises. |
| TorontoAliases.ZonesLookup | tools/patch_toronto_aliases.py:22-23 | A name maps to the last record carrying it; a later duplicate overrides. |
| TorontoAliases.FindZoneLike | tools/patch_toronto_aliases.py:48-56 | None iff no candidate is a case-insensitive substring of any key. Otherwise a key of the map, matched by the first matching candidate. |
| TorontoAliases.CandidateOrderWins | tools/patch_toronto_aliases.py:51-55 | Candidate order outranks key order. |
| TorontoAliases.PairFor | tools/patch_toronto_aliases.py:82-86 | The zone is echoed. The one-bedroom value is present iff the zone is in the map and its `1bed` is a number, and then it is that number. |
| TorontoAliases.ExtractPairs | tools/patch_toronto_aliases.py:79-87 | One entry per friendly name, in mapping order, each paired by `PairFor`. |
| MergeCmhc.NameIgnoresDirectory | tools/merge_cmhc.py:16 | A file's name does not depend on its directories. |
| MergeCmhc.Stem | tools/merge_cmhc.py:24 | The stem is a prefix of the name. It is cut exactly when the name's last dot is an inner one, and then at that dot. |
| MergeCmhc.GuessCity | tools/merge_cmhc.py:15-24 | The display name of the first listed city in the lower-cased file name, else the file's stem. |
| MergeCmhc.GuessIgnoresDirectory | tools/merge_cmhc.py:15-24 | The guess depends only on the file name. |
| MergeCmhc.QuebecIsQuebecCity | tools/merge_cmhc.py:17-22 | A name mentioning "quebec" and no earlier city is filed as "Quebec City". |
| MergeCmhc.SplitArgs | tools/merge_cmhc.py:31-35 | Usage exit iff there are fewer than four arguments. Otherwise at least three inputs and the last argument as output. |
| MergeCmhc.LaterInputWins | tools/merge_cmhc.py:42-45 | A city holds the data of the last input filed under it. |
| MergeCmhc.MergeCities | tools/merge_cmhc.py:42-45 | The merge loop builds exactly the specified cities. |
| MergeCmhc.MetaOf | tools/merge_cmhc.py:50-55 | Lists count items, objects count keys, and anything else is named by its type. |
| MergeCmhc.CountMeta | tools/merge_cmhc.py:47-56 | One summary per city, in the cities' order. |
| MergeCmhc.Merge | tools/merge_cmhc.py:30-56 | Usage exit iff fewer than four arguments. Otherwise the version, the source, the merged cities of the loaded inputs, and their summaries. |

## Left out

- **Model calls.** The hosted-model planning and finalizing calls, their prompts and retries are outside the model. The router's result is an input of `FinishPack`.
- **Files, network and clock.** File reads and writes, the HTTP fetch, the object-store client, the clock and UUID generation are parameters, and their outcomes are inputs. Directory creation is not modelled.
- **Library behaviour as parameters.**
  - The lenient JSON parser, `json.loads`, the fence-stripping regular expression and the property-type patterns are function parameters.
  - Hint sentences are rendered by a `show` parameter.
- **Handler wrappers.** The `lambda_handler` envelope (the `body` string decoding, `statusCode` and headers) is not modelled. Replies are datatypes with a `Status()`. An exception in a handler is the 500 reply only where the dataset fails to load.
- **Request numbers.** Request values are taken after `float()` as `Option<real>`. A request value that converts to NaN or infinity is not modelled. Dataset cells stay JSON, so a NaN transit score or distance is modelled in the filters and the score, but not in the `_why` message (see below).
- **Rounding.** `round(x, 2/3/4)` of reported ratios and scores is treated as exact. `round` in `normalize_transit` and `int()` truncation are modelled.
- HousingData.GetCityMedian: a median cell that converts to NaN is treated as missing, where Python returns NaN.
- HousingData.GetNeighbourhoodMedian: a row median cell that converts to NaN is treated as missing, where Python returns NaN. `get_rent_data` and `get_neighbourhood_stats` would then list that row with a NaN median, and `suggest_neighbourhoods` would take it into the filters; the model skips the row in all three.
- PyJson.ParseFloat: reads signed decimal numerals and "nan" only. `float()` also reads exponents ("1e2"), "inf" and "infinity" and digit-group underscores, and `json.loads` can yield infinite floats; the model treats such values as unconvertible.
- SuggestNeighbourhoods.MakeWhy: models the message's structure, not its text. In Python, `int()` raises on a `null` minimum transit, on a `null` or NaN transit cell of the row, and on either one given as a string that is not an integer numeral; `float()` raises on a `null` or unconvertible `target_rent_to_income`. Each would turn the reply into a 500. The model reads a `null`, NaN or unconvertible value as 0, truncates a decimal string, uses the filter's target, and replies 200.
- SuggestNeighbourhoods.Handle: the `snapshot_fallback` constant and a non-dict `prefs` value are not modelled.
- SuggestNeighbourhoods.SortByScore: the in-place `list.sort` is modelled as a pure stable insertion sort. It sorts on the exact score, while the code sorts on the stored `round(score, 3)`: rows whose scores differ but round equal keep dataset order in the code and are ordered by exact score in the model, so the top three can differ.
- MergeCmhc.Name: `pathlib` name-splitting is modelled for POSIX paths with `/` separators. Windows separators are not modelled.
- **Script glue.** The dataset-patching script's fixed mapping tables and output writing, and the merge script's `print` output, are data and I/O, not logic. The merge script's `load` parameter is total: a failed read or parse of an input file, which raises in the script, is not modelled.
- Strings.Lower: `lower`, `title` and `strip` are modelled on ASCII only. Python also strips non-ASCII whitespace and lower- and title-cases non-ASCII letters, so for example `"montréal".title()` differs from the model's result.
