# ChatJapan statistics core, modelled in Dafny

ChatJapan is a chat application about Japanese regions. A language model answers
questions about an area, using official statistics fetched from the e-Stat API of the
Statistics Bureau of Japan. This project models the deterministic core of that pipeline
and proves properties of the model:

- **The e-Stat client** (`EStatClient`, in `estat_client.dfy`):
  - the API-key check of the constructor;
  - area-code normalisation (a municipality code is padded to 5 characters; a
    prefecture code is padded to 2 characters and followed by `000`);
  - the query parameters of the `getStatsData` and `getStatsList` requests;
  - the classification of a `getStatsData` reply into HTTP failure, upstream failure
    or success;
  - `buildClassMap`, the two-level code-to-label dictionary built from a table's
    classification block, written as nested loops filling a map.
- **The statistics tools** the chat model calls (`Tools`, in `tools.dfy`):
  - `listStatisticsCategories`;
  - `searchStatsList`;
  - `fetchStatistics`, which tries every table of a category for the area and falls
    back from municipality to prefecture level;
  - `fetchStatsByStatsId`, which has no fallback;
  - the row decoder `decodeValues`, written as a method with loops.

  The network is an oracle: a function from the request the client builds to the
  outcome of `fetch`.
- **The category catalog** and its lookup by id (`Categories`, in `categories.dfy`).
- **Skill inheritance** (`Skills`, in `skills.dfy`): resolving a skill's table
  categories, and building the system prompt from parent, child and area context.
- **Reading the selected area out of a boundary feature** (`Japan`, in `japan.dfy`).
- **The municipality-boundary client** (`EStatGis`, in `estat_gis.dfy`):
  - its URL and cache-key builders;
  - the way per-file download outcomes are combined into one feature list.

Three helper modules are shared by these:

- `Wrappers` (`Option`, `Result`);
- `Text` (`padStart`, prefix, suffix and substring tests, `join`, `String(n)`);
- `Seqs` (`slice(0, n)`, `find`, `flat`).

JavaScript semantics the code relies on are written out:

- truthiness: `""` and `0` are falsy;
- `??` versus a truthiness test;
- `Array.isArray(x) ? x : [x]`;
- `find` returns the first match;
- `String(error)` of an `Error` is `Error: <message>`;
- `Promise.all` fails when any table fails. The model reports the first failure in
  list order.

## Model

| member | source | states |
|---|---|---|
| EStatClient.NormalizeAreaCode | src/lib/estat/client.ts:158-164 | A municipality code of at most 5 characters becomes exactly 5: the input is a suffix of the result and the rest is `'0'`. Longer codes are unchanged. A prefecture code ends in `000`, after the code padded to 2 characters, and has length 5 for 1-2 character inputs. |
| EStatClient.MunicipalityNormalizationIdempotent | src/lib/estat/client.ts:160 | Normalising a normalised municipality code again changes nothing. |
| EStatClient.PrefectureCodeIsMunicipalityShaped | src/lib/estat/client.ts:159-163 | A normalised 1-2 character prefecture code is left alone by municipality normalisation. |
| EStatClient.NormalizeAreaCodeExamples | src/lib/estat/client.test.ts:28-42 | `13`→`13000` and `1`→`01000` as prefecture; `1310`→`01310` and `13113`→`13113` as municipality. |
| EStatClient.NewClient | src/lib/estat/client.ts:101-104 | The client is created exactly when the key is non-empty, and keeps that key. An empty key gives the error `e-Stat API key is required`. |
| EStatClient.KeyName | src/lib/estat/client.ts:107-117 | The query-string name of each parameter key (`appId`, `statsDataId`, ..., `statsField`), never empty. |
| EStatClient.KeyNameInjective | src/lib/estat/client.ts:107-146 | No two keys share a query-string name. So the object literals of both builders are faithfully a map from `ParamKey` to the value. |
| EStatClient.FlagText | src/lib/estat/client.ts:112 | The `metaGetFlg` value: the single letter `Y` or `N` of the flag. |
| EStatClient.StatsDataParams | src/lib/estat/client.ts:107-117 | Always sends `appId`, `statsDataId`, `cdArea` and `lang=J`. `metaGetFlg` is `N` only when asked, otherwise `Y`. `cdCat01`, `cdTime` and `startPosition` are sent exactly when truthy. `limit` is always sent, as `100` when absent or zero. No other key is sent. |
| EStatClient.BuildStatsDataUrl | src/lib/estat/client.ts:106-119 | The request goes to the `getStatsData` endpoint with exactly those parameters. |
| EStatClient.StatsListParams | src/lib/estat/client.ts:139-146 | Always sends `appId` and `lang=J`. `searchWord`, `statsField` and `startPosition` are sent exactly when truthy. `limit` is the given one, or `10` only when missing. No other key is sent. |
| EStatClient.BuildStatsListUrl | src/lib/estat/client.ts:139-147 | The request goes to the `getStatsList` endpoint with exactly those parameters. |
| EStatClient.ZeroLimitHandledDifferently | src/lib/estat/client.ts:107-146 | A zero `limit` becomes `100` in the stats-data request but is sent as `0` in the stats-list request. |
| EStatClient.TitleString | src/lib/llm/tools.ts:85-87 | `typeof TITLE === 'string' ? TITLE : TITLE['$']`: a string title is itself, and an object title is its `$` text. |
| EStatClient.AsList | src/lib/estat/client.ts:171-173 | A single object becomes a one-element list; an array is used as it is. |
| EStatClient.ErrorMessagesDistinguish | src/lib/estat/client.ts:124-128 | Equal error messages come from the same kind of error (HTTP or upstream) with the same status. |
| EStatClient.HttpMessageDeterminesStatus | src/lib/estat/client.ts:124 | Two HTTP-error messages are equal only for equal statuses. |
| EStatClient.ApiMessageDeterminesStatus | src/lib/estat/client.ts:128 | Two upstream-error messages are equal only for equal statuses. |
| EStatClient.ErrorMessage | src/lib/estat/client.ts:124-128 | The HTTP error text starts with `e-Stat API HTTP error: ` and ends in the status. The upstream error text starts with `e-Stat API error (status ` and ends in `): ` followed by `ERROR_MSG`. |
| EStatClient.ThrownText | src/lib/llm/tools.ts:166 | `String(error)` of one of the client's `Error`s is `Error: ` followed by its message; any other thrown value is its own text. |
| EStatClient.ApiMessageTail | src/lib/estat/client.ts:128 | After the fixed head, an upstream error text is the status, `)`, `: ` and `ERROR_MSG`. |
| EStatClient.HttpAndApiMessagesDiffer | src/lib/estat/client.ts:124-128 | An HTTP-error message never equals an upstream-error message. |
| EStatClient.FetchStatsData | src/lib/estat/client.ts:121-131 | A thrown `fetch` propagates its error. A reply that is not `ok` is an HTTP error with its status. An `ok` reply with non-zero `RESULT.STATUS` is an upstream error with that status and `ERROR_MSG`. The body is returned unchanged exactly when the reply is `ok` with status 0. |
| EStatClient.FetchStatsList | src/lib/estat/client.ts:148-150 | Only `ok` is checked: every `ok` reply's body is returned unchanged, whatever its `RESULT.STATUS`. A reply that is not `ok` is an HTTP error with its status. |
| EStatClient.AxisMapOfKeys | src/lib/estat/client.ts:175-177 | An axis dictionary holds exactly the codes of its classes. |
| EStatClient.AxisMapOfLast | src/lib/estat/client.ts:175-177 | A code maps to the name of the last class carrying it (last write wins). |
| EStatClient.ClassMapOfKeys | src/lib/estat/client.ts:172-174 | The dictionary holds exactly the `@id`s of the class objects. |
| EStatClient.ClassMapOfLast | src/lib/estat/client.ts:172-178 | An axis's dictionary is the one built from the last class object with that `@id`. |
| EStatClient.ClassMapLookup | src/lib/estat/client.ts:169-180 | `map[obj.@id][cls.@code] == cls.@name` for every class of the deciding object, unless a later class reuses the code. |
| EStatClient.ClassMapLaterObjectResets | src/lib/estat/client.ts:174 | A later object with the same `@id` resets the axis: a code only the earlier object listed is gone. |
| EStatClient.ClassMapShapeIndependent | src/lib/estat/client.ts:171-173 | A single `CLASS_OBJ` gives the same dictionary as a one-element array of it, and so does a single `CLASS` of a lone class object; `ClassShapeIndependentAt` states the `CLASS` case for any number of objects. |
| EStatClient.ClassShapeIndependentAt | src/lib/estat/client.ts:175-177 | A single `CLASS` in any one of several class objects gives the same dictionary as a one-element `CLASS` array in that object. |
| EStatClient.LastIndexWithId | src/lib/estat/client.ts:172-174 | Every `@id` present among the class objects has a last position. |
| EStatClient.BuildClassMap | src/lib/estat/client.ts:169-180 | The nested loops build exactly the dictionary `ClassMapOf` of the class objects, to which the lemmas above apply. |
| Categories.GetCategoryById | src/lib/estat/categories.ts:30-32 | Finds a catalog entry exactly when one has the id. The found entry has that id and is the first entry with it. |
| Categories.CatalogContents | src/lib/estat/categories.ts:6-28 | `STATISTICS_CATEGORIES` holds `population`, `commerce` and `economy` in that order, each with its one table id, and none sets `coverage` or `coverageNote`. |
| Categories.CatalogIdsDistinct | src/lib/estat/categories.ts:6-28 | The catalog ids are pairwise distinct. |
| Categories.CatalogEntriesHaveTables | src/lib/estat/categories.ts:6-28 | Every catalog entry names at least one table. |
| Categories.LookupOwnId | src/lib/estat/categories.ts:30-32 | Looking up an entry's own id gives that entry. |
| Tools.InferLevel | src/lib/llm/tools.ts:127 | Prefecture exactly when the code has at most 2 characters; both fetch tools infer the level this way (lines 127 and 180). |
| Tools.StatsRequest | src/lib/llm/tools.ts:121 | The client's key, `lang=J`, the table and the area are sent, with `limit=100` and `metaGetFlg=Y`, and with no category, time or start filter. |
| Tools.LookupOr | src/lib/llm/tools.ts:91-102 | `classMap[axis]?.[code] ?? code`: the dictionary's label when the axis and the code are both present, and the raw code otherwise. |
| Tools.CatLabel | src/lib/llm/tools.ts:97-101 | The `@name` of the first class object whose `@id` is the axis id, or the axis id itself when no object has it. |
| Tools.BaseRow | src/lib/llm/tools.ts:89-93 | A fresh row has exactly the columns `値`, `地域` and `時点`: the raw value and the looked-up area and time. |
| Tools.ApplyEntries | src/lib/llm/tools.ts:94-104 | The `forEach` over a row's entries only adds or overwrites columns, so every starting column stays, and no entries leave the row as it was. |
| Tools.DecodeRow | src/lib/llm/tools.ts:88-106 | Every decoded row has the columns `値`, `地域` and `時点`. |
| Tools.ApplyEntriesKeys | src/lib/llm/tools.ts:94-104 | A decoded row's keys are its starting keys plus the label of every `@cat..` entry. |
| Tools.ApplyEntriesKeeps | src/lib/llm/tools.ts:94-104 | A column that no `@cat..` entry writes keeps its value. |
| Tools.ApplyEntriesLast | src/lib/llm/tools.ts:95-102 | A `@cat..` column holds the last write to its label: the entry's value looked up on its axis, or the raw value. |
| Tools.DecodeRowBaseColumns | src/lib/llm/tools.ts:89-104 | When no `@cat..` column is labelled `値`, `地域` or `時点`: `値` is the raw value, and `地域` and `時点` are the area and time codes looked up on the `area` and `time` axes, or the raw codes. A `@cat..` column with one of those labels overwrites it, as `ApplyEntriesLast` states. |
| Tools.LookupDecodes | src/lib/llm/tools.ts:91-102 | A code that the deciding class object lists decodes to that class's name. |
| Tools.LookupFallsBack | src/lib/llm/tools.ts:91-102 | A code that no class of the deciding object lists, or an axis no object has, is shown raw. |
| Tools.DecodeRows | src/lib/llm/tools.ts:88 | At most 50 rows, `min(50, #values)`: the first values, each decoded, in order. |
| Tools.DecodeTable | src/lib/llm/tools.ts:82-116 | A null payload gives `データなし` with no values, and only a null payload does. Otherwise the title, statistics name, survey date and total count are copied, `shownCount` is the number of rows (at most 50), and the rows are the decoded first values. |
| Tools.DecodeValues | src/lib/llm/tools.ts:82-116 | The looping decoder builds the class dictionary and produces exactly `DecodeTable` of its payload. |
| Tools.Attempt | src/lib/llm/tools.ts:120-123 | One table succeeds exactly when its `fetchStatsData` succeeds, and then gives `decodeValues` of the reply's `STATISTICAL_DATA` (or null) for that table. Otherwise it fails with the fetch's error. |
| Tools.Attempts | src/lib/llm/tools.ts:120-123 | One outcome per table, each that table's attempt, in list order. |
| Tools.FetchForArea | src/lib/llm/tools.ts:118-125 | Succeeds exactly when every table does, giving one result per table in list order, the `i`-th being the decoded `i`-th table with its own statsId. Otherwise it fails with the error of the first failing table. |
| Tools.FetchForAreaSameAnswers | src/lib/llm/tools.ts:118-125 | The result depends only on the answers to the requests for its tables and code. |
| Tools.FetchForAreaOne | src/lib/llm/tools.ts:119-124 | With one table, the attempt succeeds or fails with that table. |
| Tools.FallbackNote | src/lib/llm/tools.ts:159 | The fallback note contains both the municipality code and the prefecture code. |
| Tools.BothFailedMessage | src/lib/llm/tools.ts:163 | The error contains both failure texts. |
| Tools.UnknownCategoryMessage | src/lib/llm/tools.ts:79 | The error of an unknown category contains the id asked for. |
| Tools.FetchErrorMessage | src/lib/llm/tools.ts:166 | The error of a failed fetch is `データ取得エラー: ` followed by `String` of the thrown value. |
| Tools.FetchStatistics | src/lib/llm/tools.ts:76-167 | Unknown category: its error. Success: the category's data, fetched for the reported code. Without mismatch, all three levels are the inferred one, the code is the normalised one, and there is no note. With mismatch, municipality was requested, prefecture was resolved, the code is the normalised prefecture code, and the note names both codes. |
| Tools.UnknownCategoryFetchesNothing | src/lib/llm/tools.ts:77-80 | An unknown category gives the same error whatever the network answers. |
| Tools.FirstAttemptSucceeds | src/lib/llm/tools.ts:131-143 | When all tables come back at the inferred level, that data is returned with no mismatch. |
| Tools.FallbackToPrefecture | src/lib/llm/tools.ts:144-161 | Municipality failure then prefecture success is flagged as a mismatch (requested municipality, resolved prefecture), with the prefecture code and a note naming both codes. |
| Tools.BothLevelsFail | src/lib/llm/tools.ts:162-164 | When both levels fail, the one error contains both failure texts. |
| Tools.PrefectureFailureNotRetried | src/lib/llm/tools.ts:166 | A prefecture-level failure is reported directly. The result depends only on the answers for that code, so nothing else is tried. |
| Tools.ScenarioAnswers | src/lib/llm/tools.test.ts:55-112 | In the test's network, the `commerce` table fails for `13113` and succeeds for `13000`. |
| Tools.CommerceFallbackScenario | src/lib/llm/tools.test.ts:55-112 | `commerce` at `13113` (prefecture `13`) falls back to `13000`, with a mismatch flagged and the prefecture table's data. |
| Tools.TestRowDecoded | src/lib/llm/tools.test.ts:55-112 | The test's row decodes to `値=100`, `地域=東京都` and `時点=2020年`. |
| Tools.FetchStatsByStatsId | src/lib/llm/tools.ts:179-229 | One request at the inferred level, with no fallback. A failed fetch gives `データ取得エラー: ` plus its text. A missing payload gives `データが見つかりませんでした` with the id and code. Otherwise the table is decoded as in `decodeValues`, together with the normalised code. |
| Tools.SearchRequest | src/lib/llm/tools.ts:38 | The client's key and `lang=J` are sent; the keyword is sent exactly when non-empty, with `limit=10` and no field or start filter. |
| Tools.Summarize | src/lib/llm/tools.ts:50-58 | A table summary copies the id, statistics name, title text, government organisation, cycle, survey date and total record count of its `TABLE_INF` entry. |
| Tools.SearchStatsList | src/lib/llm/tools.ts:36-63 | A failed request gives the search error with no tables. A missing `DATALIST_INF` gives zero tables and `データが見つかりませんでした`. Otherwise `NUMBER` is the total and every table is summarised, in order. |
| Tools.ListStatisticsCategories | src/lib/llm/tools.ts:17-27 | One summary per catalog entry, in catalog order, with that entry's id, name, description, coverage and note. |
| Skills.PromptParts | src/lib/llm/skills.ts:11-18 | Three segments when the parent's prompt is shown, else two. The second-to-last is the skill's prompt, the last is the area segment, and a shown parent prompt comes first. |
| Skills.BuildSkillSystemPrompt | src/lib/llm/skills.ts:7-20 | The pushed parts, joined with the separator: parent, separator, child, separator, area segment when the parent prompt is non-empty; otherwise child, separator, area segment. |
| Skills.PromptLayout | src/lib/llm/skills.ts:13-19 | The prompt ends with the area segment. It contains the skill's prompt just after the shown parent prompt and separator, so strictly after the parent prompt, which opens the prompt. |
| Skills.EmptyParentPromptSkipped | src/lib/llm/skills.ts:13-15 | A parent with an empty prompt gives the same parts as no parent. |
| Skills.ResolveSkillCategories | src/lib/llm/skills.ts:26-32 | A non-empty own list is returned as it is. Otherwise a non-empty parent list is returned. The result is `None` exactly when neither applies. A result is never a merge and never empty. |
| Skills.OwnCategoriesIgnoreParent | src/lib/llm/skills.ts:27 | With a non-empty own list, the parent makes no difference. |
| Japan.ExtractAreaFromFeature | src/lib/geojson/japan.ts:7-37 | No properties, or neither format: nothing. N03 format: the prefecture code is the first two characters of the area code. At prefecture level, the N03_001 name with that prefecture code as both code and prefecture code, or nothing without a name. At municipality level, the N03_004 name with the full area code, or nothing without a name. Fallback format: always a prefecture, with the `id` padded to 2 characters as both codes. |
| Japan.FallbackFormatIgnoresLevel | src/lib/geojson/japan.ts:29-34 | Without N03_007, the requested level makes no difference. |
| Japan.SamePrefectureBothLevels | src/lib/geojson/japan.ts:15-25 | The prefecture and municipality read from one N03 feature share the prefecture code, which is a prefix of the municipality code. |
| Japan.ExtractExamples | src/lib/geojson/japan.test.ts:5-47 | The test examples: Tokyo at prefecture level, Shibuya at municipality level, the `nam_ja`/`id` format, and empty properties. |
| EStatGis.BuildMunicipalityListUrl | src/lib/geojson/estat-gis.ts:15-18 | The API base, `/`, then the prefecture code padded to 2 characters; a 2-character code is unchanged. |
| EStatGis.BuildMunicipalityFileUrl | src/lib/geojson/estat-gis.ts:24-27 | The raw base, the padded prefecture directory, then the municipality code unchanged followed by `.json`. |
| EStatGis.CacheKey | src/lib/geojson/estat-gis.ts:62-64 | `geojson:municipality:` followed by the unpadded prefecture code. |
| EStatGis.CacheKeyInjective | src/lib/geojson/estat-gis.ts:62-64 | Different prefecture codes get different cache keys. |
| EStatGis.UrlExamples | src/lib/geojson/estat-gis.test.ts:18-21 | `13` and `1` list directories `13` and `01`. `1` and `01` list the same directory but are cached apart. |
| EStatGis.JsonFiles | src/lib/geojson/estat-gis.ts:40 | The filtered list is never longer than the listing. |
| EStatGis.JsonFilesMembers | src/lib/geojson/estat-gis.ts:40 | The filter keeps exactly the entries whose name ends in `.json`. |
| EStatGis.JsonFilesAppend | src/lib/geojson/estat-gis.ts:40 | Filtering distributes over concatenation, so order is kept. |
| EStatGis.Gather | src/lib/geojson/estat-gis.ts:43-54 | One result per entry, in entry order, each that file's contribution. |
| EStatGis.ListFailureMessage | src/lib/geojson/estat-gis.ts:36 | The message names the prefecture code as given and ends in `: ` and the status. |
| EStatGis.FileFeatures | src/lib/geojson/estat-gis.ts:45-52 | A file contributes its features when its download is `ok`, and nothing when it is not `ok` or throws. |
| EStatGis.FetchMunicipalityGeoJson | src/lib/geojson/estat-gis.ts:29-60 | A failure is given as `String` of what was thrown. A thrown listing request propagates its text. A listing that is not `ok` fails with `Error: ` and the message naming the prefecture code and status. A listing that is `ok` gives the per-file features of the `.json` entries, concatenated. |
| EStatGis.FeaturesInFileOrder | src/lib/geojson/estat-gis.ts:43-58 | The `j`-th feature of the `i`-th file sits right after all features of the earlier files. |
| EStatGis.NonJsonEntryIgnored | src/lib/geojson/estat-gis.ts:40 | An added entry that is not `.json` leaves the result unchanged. |
| EStatGis.GatherAppend | src/lib/geojson/estat-gis.ts:43-54 | The per-file results of an added file come after the earlier ones. |
| EStatGis.FailedFileDropsOut | src/lib/geojson/estat-gis.ts:45-52 | A `.json` file whose download fails or is not `ok` contributes nothing. |
| Seqs.Take | src/lib/llm/tools.ts:88 | `slice(0, n)`: `min(n, length)` elements, each equal to the original at its position. |
| Seqs.FindFirst | src/lib/estat/categories.ts:31 | `find`: nothing exactly when no element satisfies the test, otherwise the element at the first position that does. |
| Seqs.FindFirstAt | src/lib/llm/tools.ts:100 | When position `i` is the first to satisfy the test, `find` returns that element. |
| Seqs.AllOk | src/lib/llm/tools.ts:119-124 | `Promise.all` over settled outcomes: succeeds exactly when every outcome does, with the values in order. Otherwise it fails with the error of the first failed outcome in list order. |
| Seqs.Flatten | src/lib/geojson/estat-gis.ts:58 | `flat()` of no lists is empty; otherwise the last list ends the result. |
| Seqs.ExistsSnoc | src/lib/llm/tools.ts:94-104 | A proof helper for `Tools.ApplyEntriesKeys`, which goes through the row's entries one at a time: an element of a list satisfies a test exactly when one of all but its last does, or its last does. |
| Seqs.FlattenAt | src/lib/geojson/estat-gis.ts:58 | `flat()` keeps every element in order: the `j`-th element of list `i` sits after all elements of the earlier lists. |
| Seqs.FlattenLength | src/lib/geojson/estat-gis.ts:58 | The flattened length is the sum of the lengths. |
| Seqs.FlattenAppendEmpty | src/lib/geojson/estat-gis.ts:43-58 | An empty list contributes nothing to the flattening. |
| Seqs.FlattenAppend | src/lib/geojson/estat-gis.ts:58 | Flattening distributes over concatenation. |
| Text.PadStart | src/lib/estat/client.ts:160-163 | `padStart(n, '0')`: the length is `max(n, length)`, the input is a suffix, the rest is `'0'`, and a long-enough input is unchanged. |
| Text.PadStartIdempotent | src/lib/estat/client.ts:160 | Padding twice to the same length equals padding once. |
| Text.NatToString | src/lib/geojson/japan.ts:32 | `String(n)` of a non-negative number: at least one decimal digit, with no leading zero. |
| Text.IntToString | src/lib/estat/client.ts:115-116 | `String(n)` for an integer below 2^53 in magnitude and below 10^21: at least one character, and all digits exactly when the number is non-negative. |
| Text.NatToStringRoundTrip | src/lib/estat/client.ts:124 | Reading the digits of `String(n)` back gives `n`. |
| Text.IntToStringInjective | src/lib/estat/client.ts:124-128 | Distinct integers are written differently. |
| Text.Join | src/lib/llm/skills.ts:19 | `parts.join(sep)`: empty for no parts; otherwise it starts with the first part, followed by the separator when there is a second part. |
| Text.InfixOfConcat | src/lib/llm/tools.ts:159-163 | A proof helper for the message contracts of `Tools.FallbackNote`, `Tools.BothFailedMessage`, `Tools.UnknownCategoryMessage` and `EStatGis.ListFailureMessage`: a string placed inside a concatenation occurs in it, at the known position. |
| Text.JoinTwo | src/lib/llm/skills.ts:19 | `[a, b].join(sep)` is `a + sep + b`. |
| Text.JoinThree | src/lib/llm/skills.ts:19 | `[a, b, c].join(sep)` is `a + sep + b + sep + c`. |

## Left out

- The HTTP exchange itself: `fetch`, headers (the `User-Agent` of the boundary
  client), JSON parsing, and the percent-encoding of `URLSearchParams`. A request is
  kept as its endpoint plus a map of parameters.
- The order of the query keys. Each key is sent at most once, so the object literal
  is modelled as a map, and it does not say in which order the keys reach the query
  string.
- The concurrency of `Promise.all`. When several tables fail at once, the source rejects
  with the first failure in time; the model reports the first failure in list order.
- Type errors and JSON shapes the declared types do not allow. Examples: a `VALUE`
  field that is missing, a non-array file list, a feature property of the wrong type,
  and `id: null` in the prefecture map (which the source would print as `"null"`).
  The model takes the payloads to have the declared shapes, so the `catch` blocks
  only see the errors the model produces.
- JavaScript object semantics in the row decoder. Entries of a value row are modelled
  as a list in object order. Lookups of inherited keys such as `__proto__` or
  `constructor` and integer-like keys (which JavaScript enumerates first) are not
  modelled.
- String lengths are counted in characters, not UTF-16 code units; this matters only
  for characters outside the Basic Multilingual Plane.
- `String(x)` of a non-`Error` thrown value is taken as given (`Foreign`), and of a
  fractional number is not modelled: numbers are integers.
- `Text.IntToString` writes every integer in plain decimal. Numbers are taken to be
  integers below 2^53 in magnitude; JavaScript writes numbers of 10^21 and more in
  exponent notation (`1e+21`) and does not hold integers above 2^53 exactly, and
  neither is modelled. The status codes, limits and start positions the core formats
  are in that range.
- The echo tools `getAreaInfo` and `addArea` (src/lib/llm/tools.ts:232-260) only
  return their inputs, and the tool wrappers (descriptions, input schemas) of
  `createStatisticsTools` are not modelled. The client it constructs is
  `EStatClient.NewClient`.
- Some tests disagree with the code; the model follows the code:
  - `estat-gis.test.ts` tests a `buildMunicipalityUrl` builder and an API-key client
    that the boundary client does not have.
  - `categories.test.ts:10-13` expects a `coverage` field that the catalog entries do
    not set. `coverage` and `coverageNote` are optional in the model and `None` in
    every catalog entry.
- `EStatClient.StatsDataParams`, `EStatClient.StatsListParams`: a `startPosition` or
  `limit` is an integer number; fractional and `NaN` values are not modelled.
