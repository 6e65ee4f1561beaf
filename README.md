# security_tester in Dafny

A model of a black-box security prober for HTTP APIs, with proofs about it. The prober works in five steps:

1. It reads an OpenAPI 3.0 description and flattens it into endpoint records (`tester/parser.py`).
2. For each endpoint it asks a generative model for attack test cases, using an instruction that forbids data-changing commands, and extracts the JSON list from the model's free-form reply (`tester/generator.py`).
3. It keeps the endpoints that received test cases as attack plans. It then routes each payload into the request body or into a path parameter and executes every test with a timing measurement and a 10-second timeout (`run_tester.py`, `tester/executor.py`).
4. It classifies each (endpoint, test, result) record as time-based SQL injection, error-based SQL injection or reflected XSS (`tester/analyzer.py`).
5. The demonstration target is a small task-list server with an in-memory list and an id counter (`api/main.py`).

The model's modules:

| module | models | form |
|---|---|---|
| `Json` | decoded JSON values, `dict.get`, Python truthiness | values |
| `Text` | `in`, `find`, `rfind`, `strip`, `rstrip`, `lower`, `upper`, `replace`, `split('/')[-1]` | functions |
| `Parser` | `APIParser` | a class whose endpoint list the methods append to, specified by functions |
| `Generator` | `AttackGenerator` | functions; the model call and the JSON codec are parameters |
| `Executor` | `APIExecutor.execute_test` | a function of the transport |
| `Analyzer` | `APIAnalyzer` | rule predicates, plus a class whose report the loop rebuilds |
| `Runner` | the plan-collection and execution loops of `run_tester.main` | methods with loop invariants, specified by functions |
| `Store` | the `db` list and the `current_id` counter of the target server | a class whose handlers update both |

`Wrappers` (Option, Result) and `Seqs` (generic sequence facts) are helpers.

## Model

| member | source | states |
|---|---|---|
| Json.Lookup | tester/parser.py:65-66 | `dict.get`: `None` exactly when no entry has the key; otherwise the value of an entry with that key |
| Json.Index | tester/parser.py:54 | `value[key]` on a dict, `None` where Python would raise: a non-dict or a missing key; the parser's lemmas state what follows |
| Json.Truthy | tester/parser.py:52 | Python's truth value: `None`, `False`, `0`, and the empty string, list and dict are false; used by every `if x:` of the model |
| Json.PyStr | tester/analyzer.py:61 | `str(x)`: a string as it is, anything else through the supplied renderer |
| Json.LookupDistinct | tester/parser.py:65 | in a dict, whose keys are distinct, the lookup of a listed key gives its listed value |
| Text.Find | tester/generator.py:84 | `find`: -1 means the needle does not occur; otherwise it occurs at the result and at no earlier index |
| Text.RFind | tester/generator.py:85 | `rfind`: -1 means the needle does not occur; otherwise it occurs at the result and at no later index |
| Text.Contains | tester/analyzer.py:23 | `n in h` holds exactly when `n` occurs somewhere in `h` |
| Text.Strip | tester/generator.py:90-94 | `strip()` removes only white space at both ends; the result neither starts nor ends with white space |
| Text.RStrip | tester/executor.py:16 | `rstrip('/')` keeps a prefix; everything dropped is `/`; the result does not end with `/` |
| Text.Lower | tester/analyzer.py:22 | `lower()` maps each character on its own: A-Z and U+0400..U+042F are lowered, every other character is kept |
| Text.LowerIdempotent | tester/analyzer.py:22 | lower-casing twice equals lower-casing once |
| Text.Upper | tester/parser.py:64 | each character is mapped on its own: a-z are raised, every other character is kept |
| Text.RemoveChar | tester/analyzer.py:63-64 | `replace(c, "")`: `c` no longer occurs, and every other character keeps its count |
| Text.RemoveCharAppend | tester/analyzer.py:63-64 | removing a character distributes over concatenation |
| Text.RemoveCharAbsent | tester/analyzer.py:63-64 | a string without the character is unchanged |
| Text.ReplaceAll | tester/executor.py:39 | `str.replace`: a left-to-right, non-overlapping scan; ReplaceAbsent, ReplaceAtFront and ReplaceJoin state what it does |
| Text.ReplaceAbsent | tester/executor.py:38-39 | `replace` on a string without the pattern changes nothing |
| Text.ReplaceSelf | tester/executor.py:38-39 | replacing a pattern by itself changes nothing |
| Text.ReplacePlainPrefix | tester/executor.py:38-39 | a prefix without the pattern's first character is copied verbatim |
| Text.ReplaceAtFront | tester/executor.py:38-39 | an occurrence at the front is replaced, and the scan resumes after it |
| Text.NoStraddle | tester/executor.py:39 | before a text starting with a pattern whose first character is unique, a piece without the pattern holds no occurrence reaching into that text |
| Text.ReplaceQuietPrefix | tester/executor.py:39 | a prefix in which no occurrence starts is copied verbatim |
| Text.ReplaceJoin | tester/executor.py:39 | `replace` substitutes every occurrence: pieces without the pattern, joined by the pattern, become the same pieces joined by the replacement |
| Text.LastSegment | tester/parser.py:34 | `split('/')[-1]` contains no `/`, is a suffix of the input, and is preceded by `/` when shorter than the input |
| Text.LastSegmentAfterSlash | tester/parser.py:34 | the segment after a final `/` is recovered exactly |
| Text.NatToString | tester/executor.py:68 | `str(n)`: decimal digits whose value is `n`, with no leading zero |
| Parser.SchemasOf | tester/parser.py:25 | without `components` the registry is `{}`; otherwise it is the `schemas` entry of `components`, or `{}` when that is missing |
| Parser.SchemaFromRef | tester/parser.py:27-38 | a non-string reference or a non-dict registry yields `{}` instead of raising |
| Parser.RefResolvesByName | tester/parser.py:34-36 | `prefix/name` resolves to the registry entry `name`, or to `{}` when none is registered |
| Parser.MediaSchema | tester/parser.py:54-58 | `['content']['application/json']['schema']`, `None` where a step would raise |
| Parser.RequestBodySchema | tester/parser.py:49-60 | the body schema of one operation; NoBodyNoSchema, InlineSchemaUsed, RefSchemaResolved and IncompleteBodyNoSchema state its cases |
| Parser.NoBodyNoSchema | tester/parser.py:49-52 | an operation without a truthy `requestBody` has no body schema |
| Parser.InlineSchemaUsed | tester/parser.py:52-58 | for any operation with a truthy `requestBody`, a JSON schema without `$ref` is used as given |
| Parser.RefSchemaResolved | tester/parser.py:52-55 | for any operation with a truthy `requestBody`, a JSON schema with a `$ref` is replaced by what the reference resolves to |
| Parser.RefSchemaByName | tester/parser.py:27-55 | for any operation, a body schema whose `$ref` is `prefix/name` becomes the registry entry `name`, or `{}` when none is registered |
| Parser.IncompleteBodyNoSchema | tester/parser.py:56-60 | a body lacking `content`, the JSON media type or `schema` yields no schema and does not stop the parse |
| Parser.EndpointOf | tester/parser.py:62-68 | the record keeps the path and upper-cases the method; a present summary or parameter list is kept as given, a missing summary is `"No summary"` and missing parameters are `[]`; the body schema is the one resolved for the operation |
| Parser.PathEndpoints | tester/parser.py:47-70 | one record per method key of a path |
| Parser.PathEndpointsAt | tester/parser.py:47-70 | the `k`-th record of a path is the record of its `k`-th method key |
| Parser.PathsEndpoints | tester/parser.py:46-70 | the records of every path in document order; PathsEndpointsAppend, PathsEndpointsLength and ExtractAt state its shape |
| Parser.Extract | tester/parser.py:44-70 | the records of the Paths Object of a document; ParseEndpoints appends exactly these |
| Parser.PathsEndpointsAppend | tester/parser.py:46-70 | flattening distributes over a split of the Paths Object |
| Parser.PathsEndpointsLength | tester/parser.py:46-70 | there is exactly one record per (path, method) pair |
| Parser.ExtractAt | tester/parser.py:46-70 | the `k`-th method of the `i`-th path comes right after the records of all earlier paths: paths outer, methods inner |
| Parser.EndpointList.constructor | tester/parser.py:24 | a new list is empty |
| Parser.ApiParser.constructor | tester/parser.py:24-25 | a new parser holds the document, its schema registry and a fresh, empty endpoint list |
| Parser.ApiParser.AppendPath | tester/parser.py:47-70 | the inner loop appends exactly the records of one path |
| Parser.ApiParser.AppendPaths | tester/parser.py:46-70 | the outer loop appends the records of every path, in order |
| Parser.ApiParser.ParseEndpoints | tester/parser.py:40-72 | `parse_endpoints` appends the document's records to the stored list and returns that list object itself, not a copy |
| Parser.ParseTwice | tester/parser.py:24-72 | a fresh parser returns the document's records; the second call returns the same list object, which then holds the records twice, so the first result holds them twice as well |
| Generator.PathParamNames | tester/generator.py:60 | there are no more names than parameters; the list is empty exactly when no parameter has `in == 'path'` |
| Generator.PathParamNamesAppend | tester/generator.py:60 | the names of a split list are the concatenated names |
| Generator.PathParamNamesSingle | tester/generator.py:60 | one parameter contributes its name (or `None`) exactly when it lives in the path |
| Generator.PathParamNamesOrder | tester/generator.py:60 | the names keep the parameters' order |
| Generator.CreatePrompt | tester/generator.py:26-74 | every instruction starts with the base text; a body schema always gives an instruction |
| Generator.NoSurfaceNoPrompt | tester/generator.py:73-74 | no schema and no parameters means no instruction |
| Generator.SchemaWins | tester/generator.py:45-56 | a schema selects the body instruction whatever the parameters are |
| Generator.NoPathParamNoPrompt | tester/generator.py:59-62 | parameters none of which lives in the path give no instruction |
| Generator.PathParamsPrompt | tester/generator.py:59-71 | with no schema and some path parameter, the instruction is the parameter variant over the rendered names |
| Generator.JoinNamesEach | tester/generator.py:42 | every joined item occurs in the joined text |
| Generator.CommandListNamesAll | tester/generator.py:42 | the prohibition names every forbidden command |
| Generator.BasePrompt | tester/generator.py:37-43 | the base text: role, `[VERB] path`, allowed probes and the prohibition; BasePromptContents states what it names |
| Generator.BodyPrompt | tester/generator.py:46-56 | the base text followed by the fenced schema; BodyPromptShowsSchema states that the schema appears |
| Generator.ParamPrompt | tester/generator.py:59-71 | the base text followed by the name list; ParamPromptShowsNames states that the names appear |
| Generator.BasePromptContents | tester/generator.py:37-43 | the base text names the endpoint as `[VERB] path` and every forbidden command |
| Generator.EveryPromptForbidsDestruction | tester/generator.py:37-71 | every instruction sent names the endpoint and forbids `DROP TABLE`, `DELETE FROM`, `UPDATE` and `INSERT INTO` |
| Generator.PrefixKeepsOccurrences | tester/generator.py:48-64 | appending to an instruction keeps every occurrence in it |
| Generator.BodyPromptShowsSchema | tester/generator.py:47-50 | the body instruction contains the rendered schema inside a fenced `json` block |
| Generator.ParamPromptShowsNames | tester/generator.py:64-65 | the parameter instruction contains the rendered names |
| Generator.FenceCandidate | tester/generator.py:84-94 | the text between the first opening and the last closing fence, or the whole reply, stripped; FencedRoundTrip, NoFenceFallsBack and LoneOpenFallsBack state its cases |
| Generator.FenceAfterOpen | tester/generator.py:84-90 | a closing fence found after the opening one starts at or past the end of the opening |
| Generator.FencedRoundTrip | tester/generator.py:84-90 | prose + "```json" + x + "```" + prose, with no backquotes in the prose, yields exactly `strip(x)` |
| Generator.FirstOpenAfterPlainText | tester/generator.py:84 | the first opening fence is the one after backquote-free prose |
| Generator.LastFenceBeforePlainText | tester/generator.py:85 | the last fence is the one before backquote-free prose |
| Generator.FenceEndsInBackquote | tester/generator.py:85 | a fence occurrence ends in a backquote |
| Generator.NoFenceFallsBack | tester/generator.py:91-94 | a reply without an opening fence is decoded whole, stripped |
| Generator.LastFenceNotAfter | tester/generator.py:85 | with no fence after an opening one, `rfind` lands on the fence inside that opening |
| Generator.LoneOpenFallsBack | tester/generator.py:85-94 | a lone opening fence falls back to the whole reply, because `rfind` finds the fence inside the opening |
| Generator.ParseReply | tester/generator.py:76-108 | a candidate (fenced or the whole reply) that decodes to a list yields exactly that list; a decode error or a non-list gives `[]` |
| Generator.Generate | tester/generator.py:110-131 | no instruction or a failing call gives `[]`; a reply whose candidate decodes to a list yields exactly that list; anything non-empty is the decoded reply of the model to this endpoint's instruction |
| Generator.NoPromptNoCall | tester/generator.py:115-119 | without an instruction the result is `[]` and the model is never consulted |
| Generator.ModelFailureYieldsNothing | tester/generator.py:129-131 | a failing model call yields `[]` and is not propagated |
| Generator.FencedReplyParsed | tester/generator.py:84-90 | a fenced reply is parsed as its stripped fenced text |
| Generator.FencedListReturned | tester/generator.py:110-127 | a fenced reply that decodes to a list yields exactly that list |
| Executor.Placeholder | tester/executor.py:39 | the placeholder is `str(name)` between `{` and `}` |
| Executor.FullUrl | tester/executor.py:34-39 | the URL starts with the base; without a name and a payload it is base followed by the path |
| Executor.NoPlaceholderVerbatim | tester/executor.py:38-39 | a path without the placeholder is used verbatim even when a payload is given |
| Executor.PlaceholderFilled | tester/executor.py:38-39 | `a{name}b` becomes base + `a` + payload + `b` |
| Executor.EveryPlaceholderFilled | tester/executor.py:34-39 | every occurrence of `{name}` in the path is replaced by the payload, the text between them kept as written |
| Executor.TimeoutBody | tester/executor.py:68 | the timeout body: the timeout in seconds and the exception text; TimeoutBodyNamesTen states it for 10 s |
| Executor.ResultOf | tester/executor.py:56-81 | a response keeps status and text with no error; a timeout gives 408 and error `Timeout`; any other failure gives -1 with its message as body and error |
| Executor.KindRecovered | tester/executor.py:56-81 | the outcome kind can be read back from the record; a timeout never reads as -1 |
| Executor.TimeoutBodyNamesTen | tester/executor.py:68 | the timeout body names 10 seconds |
| Executor.ApiExecutor.ExecuteTest | tester/executor.py:23-81 | one request to the built URL with the executor's timeout, mapped by `ResultOf`: a response's status and text pass through; a timeout gives 408, the timeout body and error `Timeout`; any other failure gives -1 with its message as body and error; the record carries the measured time |
| Executor.NewExecutor | tester/executor.py:14-21 | the base URL loses exactly its trailing `/`s; the timeout is 10 |
| Executor.NewExecutorIdempotent | tester/executor.py:16 | normalising the base URL twice equals normalising it once |
| Executor.TrailingSlashDropped | tester/executor.py:16-34 | a base given with a trailing `/` joined to a path gives exactly the host followed by the path |
| Analyzer.TimeoutAboveThreshold | tester/analyzer.py:6 | the executor's 10-second timeout exceeds the 4.0-second threshold |
| Analyzer.Simplified | tester/analyzer.py:63-64 | simplified text holds no space and no `'`, and every other character keeps its count |
| Analyzer.TypeName | tester/analyzer.py:89-107 | the `type` string of each class; TypeNameDistinct states that they differ |
| Analyzer.IsTimeBasedSqli | tester/analyzer.py:18-33 | `_is_time_based_sqli`: a timing keyword, at least 4.0 s, and a 2xx or 5xx status; RuleCharacterized and TimingBoundary state it |
| Analyzer.IsErrorBasedSqli | tester/analyzer.py:35-50 | `_is_error_based_sqli`: an error keyword, status 500 and a database word in the body; RuleCharacterized and ErrorRuleNeedsBoth state it |
| Analyzer.IsReflectedXss | tester/analyzer.py:52-70 | `_is_reflected_xss`: the `xss` keyword, the simplified payload inside the simplified body, and status 200; RuleCharacterized and VerbatimEchoDetected state it |
| Analyzer.Rule | tester/analyzer.py:83-107 | the first rule that fires, in the order timing, error, reflection; RuleCharacterized states each outcome |
| Analyzer.TypeNameDistinct | tester/analyzer.py:89-107 | the three `type` strings differ, so a report entry names its class unambiguously |
| Analyzer.RuleCharacterized | tester/analyzer.py:18-107 | each verdict class, as an if-and-only-if over substrings, status and time, with the rules tried in order timing, error, reflection |
| Analyzer.RecordVerdicts | tester/analyzer.py:83-117 | a record yields at most one verdict, none exactly when no rule fires; a verdict carries `[METHOD] path`, the rule's class and the test's payload |
| Analyzer.Verdicts | tester/analyzer.py:78-117 | the report: each record's verdicts in input order; VerdictsPrefixStep, VerdictsAppend and VerdictsBounded state it |
| Analyzer.VerdictsPrefixStep | tester/analyzer.py:78-117 | one more record adds exactly its own verdicts |
| Analyzer.VerdictsAppend | tester/analyzer.py:78-117 | the report of a concatenation is the concatenation of the reports |
| Analyzer.VerdictsBounded | tester/analyzer.py:78-117 | there are no more verdicts than records |
| Analyzer.SilentRecordsDropped | tester/analyzer.py:112-117 | records on which no rule fires leave the report empty |
| Analyzer.NoKeywordNoVerdict | tester/analyzer.py:23-57 | a description without any rule keyword never yields a verdict |
| Analyzer.ClientErrorNoVerdict | tester/analyzer.py:30-67 | a 4xx status (such as 422) never yields a verdict |
| Analyzer.TimingBoundary | tester/analyzer.py:27 | 4.0 seconds fires the timing rule; 3.999 does not |
| Analyzer.ErrorRuleNeedsBoth | tester/analyzer.py:40-44 | the error rule needs its keyword and exactly status 500 |
| Analyzer.SimplifiedAppend | tester/analyzer.py:63-64 | simplification distributes over concatenation |
| Analyzer.SimplifiedIgnores | tester/analyzer.py:62-64 | a space or `'` inserted anywhere is invisible to the reflection check |
| Analyzer.SimplifiedKeepsChar | tester/analyzer.py:63-64 | any other character is kept as it is |
| Analyzer.SimplifiedDropsChar | tester/analyzer.py:63 | a lone space or `'` simplifies to nothing |
| Analyzer.VerbatimEchoDetected | tester/analyzer.py:52-70 | a payload echoed verbatim in a 200 body is reported as reflected XSS unless an earlier rule fired |
| Analyzer.SlowProbeScenario | tester/analyzer.py:88-117 | a timing probe answered 200 after 5.2 s gives exactly one time-based verdict with the key and the payload; the same probe answered 422 gives none |
| Analyzer.ApiAnalyzer.constructor | tester/analyzer.py:14-16 | a new analyzer has an empty report |
| Analyzer.ApiAnalyzer.Detect | tester/analyzer.py:83-107 | the detector chain returns the first rule that fires |
| Analyzer.ApiAnalyzer.AnalyzeResults | tester/analyzer.py:72-119 | the report is rebuilt from scratch as the verdicts of the records in input order, and is returned |
| Analyzer.AnalyzeTwice | tester/analyzer.py:76 | analysing the same records twice gives the same report; nothing carries over |
| Runner.Plans | run_tester.py:41-53 | the plans: each endpoint with a non-empty generated list, in order; PlansSound, PlansComplete and PlansAppend state it |
| Runner.PlansSound | run_tester.py:41-53 | there are no more plans than endpoints; every plan holds an endpoint from the list and exactly its non-empty generated list |
| Runner.PlansPrefixStep | run_tester.py:41-53 | one more endpoint adds its plan exactly when its list is non-empty |
| Runner.PlansComplete | run_tester.py:47-53 | every endpoint with a non-empty list gets a plan |
| Runner.PlansAppend | run_tester.py:41-53 | collecting plans distributes over a split of the endpoint list |
| Runner.CollectPlans | run_tester.py:39-53 | the loop returns exactly the plans of the endpoints, in order |
| Runner.Route | run_tester.py:79-91 | a body schema sends the payload into the body; otherwise truthy parameters send `str(payload)` to the first parameter's name; otherwise the payload goes nowhere |
| Runner.BodyPayloadKeepsPath | run_tester.py:84-86 | a body payload leaves the URL as base followed by the path |
| Runner.PathPayloadFillsSlot | run_tester.py:87-91 | a path payload replaces the placeholder of the first parameter |
| Runner.PrefixRunnable | run_tester.py:71-78 | a prefix of runnable plans is runnable |
| Runner.ExecuteOne | run_tester.py:79-111 | one test routed and executed, stored with its endpoint and test; Route and ExecuteTest state its parts |
| Runner.TestRecords | run_tester.py:78-111 | the records of one endpoint's tests; TestRecordsAt and TestRecordsPrefixStep state it |
| Runner.PlanRecords | run_tester.py:71-111 | the records of all plans, plans outer, tests inner; PlanRecordsLength, PlanRecordsAt and PlanRecordsPrefixStep state it |
| Runner.TestRecordsAt | run_tester.py:78-111 | one record per test; record `t` is test `t` executed |
| Runner.PlanRecordsLength | run_tester.py:71-111 | one record per test of every plan |
| Runner.PlanRecordsAt | run_tester.py:71-111 | the record of test `t` of plan `i` follows all earlier tests' records and is that test executed against that endpoint |
| Runner.TestRecordsPrefixStep | run_tester.py:78-111 | one more test adds exactly its record |
| Runner.PlanRecordsPrefixStep | run_tester.py:71-111 | one more plan adds exactly its tests' records |
| Runner.ExecutePlans | run_tester.py:69-111 | the nested loops collect exactly the records of all plans, in order |
| Runner.RunTester | run_tester.py:14-111 | the driver's records are the plans of the parsed endpoints, executed against the normalised base URL; the listing's reads of every parameter name are among the inputs it demands |
| Runner.DriverBaseUrlKept | run_tester.py:68 | the driver's base URL has no trailing `/`, so the executor keeps it unchanged |
| Store.StatusValue | api/main.py:8-11 | the wire value of each state; StatusRoundTrip states that ParseStatus inverts it |
| Store.ParseStatus | api/main.py:8-11 | a wire value maps to the state that has it, and to none when no state has it |
| Store.StatusRoundTrip | api/main.py:8-11 | every state survives the trip to its wire value and back |
| Store.GetStatuses | api/main.py:53-55 | the three wire values, each once, in declaration order: `to-do`, `in-progress`, `done` |
| Store.FirstWithId | api/main.py:48-50 | the index the scan stops at: the first item with the id, or none when no item has it |
| Store.IdsUnique | api/main.py:22-40 | in a valid store the item with an id is the one the scan finds |
| Store.CreateKeepsValid | api/main.py:30-40 | the next counter value is on no stored item, and appending under it keeps the store valid |
| Store.Without | api/main.py:61 | the list without one position, the others in order |
| Store.RemoveKeepsValid | api/main.py:58-62 | removing an item keeps the store valid, and its id is then absent |
| Store.ReplaceKeepsValid | api/main.py:67-71 | replacing an item under the same id keeps the store valid |
| Store.RemoveFirst | api/main.py:61 | `list.remove(x)` drops one occurrence of `x` and keeps everything else |
| Store.RemoveFirstAt | api/main.py:59-61 | when no earlier item equals the found one, `remove` removes exactly the found position |
| Store.ItemStore.constructor | api/main.py:22-23 | the server starts with no items and counter 0 |
| Store.ItemStore.CreateItem | api/main.py:30-40 | the counter goes up by one; the item is appended under that id, which no stored item has |
| Store.ItemStore.GetItems | api/main.py:43-44 | the whole list, in insertion order |
| Store.ItemStore.GetItemById | api/main.py:47-51 | the first item with the id, or `None` (404) exactly when there is none |
| Store.ItemStore.DeleteItem | api/main.py:58-63 | the found item is removed, the others keep their order, and the id is gone; no match means 404 and nothing changes; the counter is untouched |
| Store.ItemStore.UpdateItem | api/main.py:66-72 | the found item is replaced in place by the request's item carrying that id; no match means 404 and nothing changes |
| Store.ItemStore.UpdateItemStatus | api/main.py:75-80 | only the status of the found item changes; no match means 404 and nothing changes |
| Store.DeletedIdNotReissued | api/main.py:30-63 | after create, delete and create, the two ids differ and the deleted id is not found |

## Left out

- Reading `openapi.json`, with its `exit(1)` paths, and `json.load` itself. The parser starts from a decoded value.
- The Gemini client, the API key from `.env`, and the model call. `Generator.Oracles` makes the call a parameter returning success or failure. `json.loads`, `json.dumps(indent=4)` and `str()` are parameters too.
- The exact prose of the instructions. It is the `Wording` record, with the source's text in `SourceWording`. The proved properties hold for any wording: endpoint tag, forbidden commands, fenced schema, names.
- Real HTTP and the clock. The session is a function from the request to an outcome and the measured seconds. The seconds are `real`, not floating point.
- The `details` strings of verdicts: `:.2f` formatting and `body[:100]`. A verdict keeps its class, key and payload.
- Printing throughout, including the listing loops in `run_tester.py` lines 20-34 and 57-64, and `read_root`. The listing's reads that can raise (every parameter's `name`) are demanded by `Runner.Listable`.
- `Text.Lower`: maps only A-Z and the Cyrillic capitals U+0400..U+042F, not all of Unicode, because every keyword and the statuses are Latin or Cyrillic.
- `Text.ReplaceAll`: has no ensures of its own. `ReplaceJoin` states its meaning for a pattern whose first character occurs only once in it, such as `{name}` with no brace in `name`. For other patterns only the lemmas `ReplaceAbsent`, `ReplaceSelf`, `ReplaceQuietPrefix` and `ReplaceAtFront` describe it.
- Inputs that make the source raise an uncaught exception are excluded by preconditions rather than modelled. They are `Parsable`, `Listable`, `PromptDefined`, `RouteDefined`, `TestReadable`, `DescriptionReadable` and `Analyzable`.
- Routing takes `parameters[0]['name']` whatever that parameter's `in` is, as the source does. A query parameter listed first therefore receives a path payload that fills no placeholder.
- The analyzer is not called by the driver: `run_tester.py` stops after collecting the records. `Analyzer.Record` is the record the driver produces, and nothing joins the two.
- `Store.ItemStore.GetItems`: returns a value copy of the list. The source returns the live list, and `update_item_status` mutates the stored item object. Aliasing through either is not modelled.
- Upper: maps only a-z, not every cased letter, and never lengthens a string (Python maps `ß` to `SS`). It is applied only to OpenAPI method keys, which are lower-case ASCII.
- `Json.JNum` holds integers only. JSON fractional numbers in schemas or payloads are not represented.
- FastAPI routing, pydantic validation and defaults (such as the `TaskStatus.TODO` default), and `async`. The handlers are called with validated values.

## Behaviour worth noting

These follow from the code as written, and the model keeps them.

- The error-based rule fires only on status 500 exactly (`tester/analyzer.py:44`), not on any server-error status. `Analyzer.ErrorRuleNeedsBoth` states it.
- A parameter without an `in` key is not treated as a path parameter. The name list keeps only entries whose `in` is `path` (`tester/generator.py:60`), and the parser supplies no default. `Generator.NoPathParamNoPrompt` covers a missing `in`.
- An unresolved `$ref` gives the schema `{}`, not a null schema (`tester/parser.py:36`). `{}` is falsy, so the generator then treats the endpoint as having no body.
- A malformed result triple makes `analyze_results` raise (`tester/analyzer.py:79-81`, `:27`); it is not skipped. `Analyzer.Analyzable` excludes such triples.
- The analyzer keeps its report in `self.vulnerabilities` and resets it at the start of each call. `Analyzer.AnalyzeTwice` shows that the result nevertheless depends on the records alone.
