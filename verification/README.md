# Job agent system: a Dafny model of the backend core

This project models the deterministic core of the job agent backend, which has five parts:

- **The agent workflow.** It validates the input, routes by task type, runs the step functions and builds the output envelopes.
- **AI reply post-processing.** It pulls the JSON object out of a reply and applies each operation's fallback policy.
- **The tool service.** It covers the tool registry, the three job-board tools, company research, and job aggregation across boards.
- **Persistence rules.** These belong to the background tasks and the CV service: job listings deduplicated by external id, and matches and recommendations upserted by key. They also cover find-or-create of skills, CV skills, activation, and the "one active CV" rule after processing.
- **Validators.** These are the CV upload gate with its error-to-status mapping, the 404 mapping of the other CV endpoints, and the range and default constraints of the request schemas.

The model is purely functional:

- Database tables are sequences of rows in insertion order. "First matching row" is `Store.FirstWhere`.
- Every outside collaborator becomes a parameter. These are the chat model's reply, the JSON decoder, the job boards' outcomes, the clocks, the ids of new rows (or their absence), the database's error texts and the file system's answers.
- Each source file is one module:
  - `AgentGraph`: the agent workflow
  - `AiService`: the AI service
  - `Mcp`: the tool service
  - `Tasks`: the background tasks
  - `CvService`: the CV service
  - `CvEndpoints`: the CV endpoints
  - `Schemas`: the request schemas
- Three modules support them:
  - `Common`: JSON values, Python truthiness, `dict.get`, string helpers
  - `Store`: first-match lookup and key uniqueness
  - `StableSort`: a stable insertion sort with its specification

Python's own behaviour is written out where the code relies on it:

- `KeyError` text is `'key'`.
- `str(HTTPException)` is `"status: detail"`.
- `pathlib` `suffix` is modelled.
- pydantic ignores extra fields.
- Columns are NOT NULL where the table says so.
- `list.sort` is stable, also with `reverse=True`.

Where the code does something other than what its authors evidently meant, the model keeps both versions. A parameter selects between them (`Routing`, `CvConstruction`, `ErrorHandling`, `Labelling`, and `NewIds` for the ids of new rows), and the "## Findings" section lists each case.

Where the system's written description and its code disagree, the model follows the code:

- A failed aggregate search leaves an empty job list and sets no error, because the tool service reports failure in its result rather than raising.
- Job analysis never aborts on one job, because the AI service's analysis never raises.
- Recommendation generation returns the fixed fallback list when the AI call fails. It returns an empty list when the reply decodes, since the decoded value is always an object.
- The matching route passes through recommendation generation before formatting.
- The direct recommendations route fails, because `match_results` is still unset.
- The driver's record for an escaping exception has no `status` key, unlike error handling's envelope.

## Model

| member | source | states |
|---|---|---|
| AgentGraph.Fail | backend/app/agents/job_agent_graph.py:226-228 | a step failure records its message as the state's error, which later routes to error reporting |
| AgentGraph.ValidateInput | backend/app/agents/job_agent_graph.py:153-184 | validation either leaves the state untouched or records the task's missing-input message; it never raises |
| AgentGraph.ValidateInputRejectsMissing | backend/app/agents/job_agent_graph.py:159-180 | any required key of the task that is absent yields exactly that task's message (cv_id; keywords; cv_id and job_ids; user_id; tool_name and parameters) |
| AgentGraph.ValidateInputAcceptsComplete | backend/app/agents/job_agent_graph.py:153-184 | with every required key present, and for unknown task types, the state passes through unchanged |
| AgentGraph.AddEdgesFrom | backend/app/agents/job_agent_graph.py:93-111 | adding the unconditional edges in order succeeds iff no edge leaves a node that an earlier edge already leaves, and then gives exactly the added edges; otherwise the first repeated start raises "Already found path for node …" |
| AgentGraph.AddEdges | backend/app/agents/job_agent_graph.py:93-111 | the graph's edge calls succeed iff no start node repeats, giving exactly the added edges; otherwise the first repeated start node is named in the error |
| AgentGraph.AsWrittenGraphIsRefused | backend/app/agents/job_agent_graph.py:102-107 | as written, the second edge from recommendation generation to formatting is refused, so building the graph raises |
| AgentGraph.IntendedGraphIsBuilt | backend/app/agents/job_agent_graph.py:93-111 | with that edge added once, the calls succeed and give exactly the graph's edge table |
| AgentGraph.RouteAsWritten | backend/app/agents/job_agent_graph.py:186-204 | an error pre-empts routing ("error"); otherwise the five task types name their entry node and any other task type gives "error" |
| AgentGraph.RouterLabelsOutsidePathMap | backend/app/agents/job_agent_graph.py:79-90 | the router's label is missing from the conditional edge map exactly for an error-free recommendations or mcp_search state |
| AgentGraph.Route | backend/app/agents/job_agent_graph.py:79-90 | corrected router: its label is always a path-map key, leading to error handling on error or unknown task, else to the task's entry node |
| AgentGraph.Next | backend/app/agents/job_agent_graph.py:76-111 | every transition follows an edge of the graph and moves forward; only the as-written router can fail, with a KeyError, and only on an unmapped label |
| AgentGraph.SuccIsTable | backend/app/agents/job_agent_graph.py:93-111 | the successor function and the declared edge table agree node by node |
| AgentGraph.ErrorHandlingOnlyAfterValidation | backend/app/agents/job_agent_graph.py:79-90 | error handling is reachable only from the router after input validation |
| AgentGraph.PathToEndIsRoute | backend/app/agents/job_agent_graph.py:76-111 | every edge path that ends at END is one of the routes enumerated from its first node |
| AgentGraph.RouteStep | backend/app/agents/job_agent_graph.py:93-111 | a route from a non-final node starts with one table edge to a strictly later node |
| AgentGraph.RoutesHaveOneTerminal | backend/app/agents/job_agent_graph.py:93-111 | every route to END passes through exactly one of output formatting and error handling, immediately before END |
| AgentGraph.CompleteRunsHaveOneTerminal | backend/app/agents/job_agent_graph.py:76-111 | every path from START to END passes through exactly one terminal envelope builder, immediately before END |
| AgentGraph.AnalyzeCvStep | backend/app/agents/job_agent_graph.py:206-228 | CV analysis stores the analysis and an analysis record stamped with the clock and changes nothing else; a missing cv_id becomes the step's error; a failed AI call leaves the CV fallback |
| AgentGraph.SearchParameters | backend/app/agents/job_agent_graph.py:237-245 | the search request carries the input keywords and location (None when absent), the fixed sources linkedin, indeed, glassdoor, and a limit of 20 |
| AgentGraph.SearchJobsStep | backend/app/agents/job_agent_graph.py:230-254 | the search stores a tool result and its jobs and changes nothing else; a failed aggregation leaves an empty job list, not an error; non-text keywords give the invalid-parameters failure; a missing keywords key becomes the step's error |
| AgentGraph.SearchJobsStepLabelsByBoard | backend/app/agents/job_agent_graph.py:237-248 | the stored result is the aggregate tool's answer to the search parameters, and under either labelling it equals the correctly labelled answer, because the request names the boards in query order |
| AgentGraph.AnalyzedJob | backend/app/agents/job_agent_graph.py:263-269 | an analysed job is the original job plus an analysis |
| AgentGraph.AnalyzeJobsStep | backend/app/agents/job_agent_graph.py:256-281 | job analysis keeps the list's length and order, adds an analysis to each job, records the batch; a missing job list is the step's "not iterable" error |
| AgentGraph.MatchFor | backend/app/agents/job_agent_graph.py:300-311 | a match names its job and takes overall_score from the analysis, defaulting to 0 |
| AgentGraph.Matches | backend/app/agents/job_agent_graph.py:296-311 | one match per entry of the job list, in order (none without a job list) |
| AgentGraph.SortByScore | backend/app/agents/job_agent_graph.py:314 | sorting keeps the same matches; all-numeric scores sort by number and all-text scores by string order; it fails exactly when two or more matches have scores that are neither all numbers nor all text |
| AgentGraph.TextLeTotalOrder | backend/app/agents/job_agent_graph.py:314 | text scores are compared by a total order |
| AgentGraph.IntLeTotalOrder | backend/app/agents/job_agent_graph.py:314 | scores are compared by a total order |
| AgentGraph.SortByScoreOrdered | backend/app/agents/job_agent_graph.py:314 | the sorted matches are non-increasing by score (numeric or text, whichever all scores are), and matches with equal scores keep their input order; fewer than two matches are returned as they are |
| AgentGraph.NumericScoresOrdered | backend/app/agents/job_agent_graph.py:314 | all-numeric scores always sort, non-increasing, with equal scores in job order |
| AgentGraph.TextScoresOrdered | backend/app/agents/job_agent_graph.py:314 | all-text scores always sort, in non-increasing string order, with equal scores in job order |
| AgentGraph.CalculateMatchesStep | backend/app/agents/job_agent_graph.py:283-327 | matching records the CV id, the job ids and a permutation of the per-job matches and changes nothing else; missing keys, or scores that are neither all numbers nor all text, become the step's error |
| AgentGraph.RecommendationsStep | backend/app/agents/job_agent_graph.py:329-354 | without match results the step fails with the message for `.get` on None; otherwise it stores the AI recommendations (empty or the fallback) and changes nothing else |
| AgentGraph.IntegrateMcpStep | backend/app/agents/job_agent_graph.py:356-371 | the tool step stores a result for the named tool and changes nothing else; missing keys become the step's error |
| AgentGraph.IntegrateMcpStepRunsTool | backend/app/agents/job_agent_graph.py:359-365 | for a text tool name and a parameter dict, the stored result is the tool service's result for them, under the run's labelling |
| AgentGraph.FormatOutput | backend/app/agents/job_agent_graph.py:373-413 | the envelope's status is "completed" iff no error and "failed" iff an error; the error key is present iff an error is set; the payload holds exactly the task type's keys; the timestamp is the clock's; nothing else in the state changes |
| AgentGraph.FormatOutputCarriesState | backend/app/agents/job_agent_graph.py:386-403 | each payload key carries the state's value for its task type: CV and analysis, jobs and search results, matches, recommendations, tool results |
| AgentGraph.HandleError | backend/app/agents/job_agent_graph.py:415-428 | error handling reports the task type, user id, timestamp and error with status "failed" and changes nothing else |
| AgentGraph.RunFollowsEdges | backend/app/agents/job_agent_graph.py:137 | a run follows a path through the graph from its start node and, when it returns, ends at END |
| AgentGraph.RunWorkflow | backend/app/agents/job_agent_graph.py:115-151 | a completed run carries the elapsed time; an escaping exception becomes the record of error, elapsed time, task type and user id |
| AgentGraph.IntendedRunsReturn | backend/app/agents/job_agent_graph.py:76-111 | with the corrected router, no node lets an exception escape the graph |
| AgentGraph.IntendedWorkflowCompletes | backend/app/agents/job_agent_graph.py:115-151 | with the corrected router, every workflow completes |
| AgentGraph.AsWrittenRouterCrashes | backend/app/agents/job_agent_graph.py:79-90 | as written, and once the graph is built, valid recommendations and mcp_search requests end in the driver's failure record with the router's KeyError |
| AgentGraph.MissingInputIsReported | backend/app/agents/job_agent_graph.py:153-184 | missing input completes the run through error handling, reporting the task's message with no execution time |
| AgentGraph.UnknownTaskReportsNone | backend/app/agents/job_agent_graph.py:415-428 | an unknown task type completes through error handling with no error message to report |
| AgentGraph.DirectRecommendationsFail | backend/app/agents/job_agent_graph.py:128 | a direct recommendations request completes "failed" with the recommendation-generation message and no recommendations, because match results are still unset |
| AgentGraph.CvAnalysisRoute | backend/app/agents/job_agent_graph.py:93 | a CV analysis request runs analysis then formatting, and nothing else |
| AgentGraph.CvAnalysisFallsBack | backend/app/services/ai.py:95-97 | when the AI call fails, the CV analysis request still completes and reports the fixed CV fallback |
| AgentGraph.MatchingTail | backend/app/agents/job_agent_graph.py:100-101 | from matching, the graph runs recommendation generation before formatting |
| AgentGraph.MatchingRoute | backend/app/agents/job_agent_graph.py:100-101 | a matching request runs matching, then recommendations, then formatting |
| AgentGraph.MatchingRouteMatchesNothing | backend/app/agents/job_agent_graph.py:296-300 | a matching request alone carries no job list, so it completes with an empty match list and some recommendations |
| AgentGraph.JobAnalysisTail | backend/app/agents/job_agent_graph.py:97 | from job analysis, the graph runs formatting next |
| AgentGraph.JobSearchTail | backend/app/agents/job_agent_graph.py:96-97 | from job search, the graph runs job analysis then formatting |
| AgentGraph.JobSearchRoute | backend/app/agents/job_agent_graph.py:96-97 | a job search request runs search, analysis, then formatting |
| AgentGraph.JobSearchAnalyzesEveryJob | backend/app/agents/job_agent_graph.py:247 | a job search completes, and every job of the tool result comes back once, in order, with an analysis |
| AgentGraph.JobSearchWithInvalidKeywords | backend/app/agents/job_agent_graph.py:247 | a search whose keywords are not text still completes: the tool's invalid-parameters failure is kept and the job list is empty |
| AgentGraph.ExecuteKeepsExecutionTime | backend/app/agents/job_agent_graph.py:140-141 | no node of the graph touches the execution time |
| AgentGraph.RunRecordsOutput | backend/app/agents/job_agent_graph.py:373-428 | every returning run has a final output carrying the execution time the graph started with |
| AgentGraph.OutputHasNoExecutionTime | backend/app/agents/job_agent_graph.py:140-141 | the final output's execution time is still None; only the state gets the elapsed time, after the graph |
| AgentGraph.McpIntegrationTail | backend/app/agents/job_agent_graph.py:104 | from tool integration, the graph runs formatting next |
| AgentGraph.UnknownToolIsReportedNotFailed | backend/app/services/mcp.py:411-413 | an mcp_search request for an unknown tool completes "completed", carrying the tool service's not-found failure |
| AiService.ExtractJson | backend/app/services/ai.py:327-333 | extraction fails iff a brace is missing; the slice is empty iff the last '}' precedes the first '{'; otherwise it is the span from the first '{' to the last '}' |
| AiService.JsonSpanUnique | backend/app/services/ai.py:327-331 | a reply has at most one first-'{'-to-last-'}' span |
| AiService.ExtractJsonKeepsBracePairs | backend/app/services/ai.py:327-331 | a non-empty cut starts at the first '{', begins with '{' and ends with '}', and contains every '{' that is followed later by a '}' together with that '}' |
| AiService.ParseJsonResponse | backend/app/services/ai.py:323-339 | a missing brace gives "No JSON found in response"; misordered braces decode an empty document and fail; otherwise the decoder's verdict on the span is returned |
| AiService.ParseJsonResponseMisorderedBraces | backend/app/services/ai.py:327-334 | an example: "}{" extracts the empty string and fails to decode |
| AiService.ExtractJsonNested | backend/app/services/ai.py:327-331 | an example: a reply with a nested object around text cuts out the whole outer object |
| AiService.CallOpenAiAsWritten | backend/app/services/ai.py:290-321 | as written, the chat call always raises: `content` at line 310 is an undefined name |
| AiService.CallOpenAi | backend/app/services/ai.py:290-321 | corrected call: a failed client setup is raised, otherwise the model's reply or failure is passed through |
| AiService.ParsedOr | backend/app/services/ai.py:93-97 | any failure gives the fallback; a result other than the fallback is the decoded span of a successful reply |
| AiService.AnalyzeCv | backend/app/services/ai.py:13-97 | CV analysis never raises: a failed call or an undecodable reply gives the CV fallback, and a reply that decodes gives exactly the decoded object |
| AiService.AnalyzeJobDescription | backend/app/services/ai.py:99-169 | job analysis never raises: a failed call or an undecodable reply gives the job fallback, and a reply that decodes gives exactly the decoded object |
| AiService.CalculateMatchScore | backend/app/services/ai.py:171-233 | match scoring never raises: a failed call or an undecodable reply gives the match fallback, and a reply that decodes gives exactly the decoded object |
| AiService.GenerateSkillRecommendations | backend/app/services/ai.py:235-288 | the result is empty exactly when the reply decodes (no decoded value is an array), and the fixed fallback list otherwise |
| AiService.AsWrittenAlwaysFallsBack | backend/app/services/ai.py:310 | as written, all four analysis operations return their fallbacks whatever the model would say |
| AiService.CorrectedCallReturnsDecodedReply | backend/app/services/ai.py:93 | with the corrected call, a reply holding one decodable JSON span is returned as the CV analysis, the job analysis and the match score |
| Mcp.RegistryIndex | backend/app/services/mcp.py:396-406 | every tool sits at a position of the registry |
| Mcp.LookupTool | backend/app/services/mcp.py:408-413 | lookup finds the registered tool of that name, or reports that none has it |
| Mcp.LookupToolRoundTrip | backend/app/services/mcp.py:396-406 | looking up a registered tool's name gives that tool back |
| Mcp.SliceByLimit | backend/app/services/mcp.py:78 | `[:limit]` keeps a prefix of at most `limit` items (all of them for None) and raises for a limit that is not an integer |
| Mcp.OrText | backend/app/services/mcp.py:63 | a falsy location becomes "Remote"; a truthy one is kept |
| Mcp.BoardJob | backend/app/services/mcp.py:58-73 | a board's job carries the board's name, an id made of board name and timestamp, the clock's date and the location default |
| Mcp.ProviderExecute | backend/app/services/mcp.py:44-97 | a board returns its one job cut to `limit`, with total 1, and fails only when the limit cannot slice |
| Mcp.Mentions | backend/app/services/mcp.py:260-267 | the `in` test on the sources raises exactly when they are not a container |
| Mcp.Queried | backend/app/services/mcp.py:260-267 | the queried boards are exactly those named in sources, always in the order linkedin, indeed, glassdoor |
| Mcp.PositionalLabel | backend/app/services/mcp.py:276 | result i is labelled `sources[i]`; indexing a dict of sources raises KeyError |
| Mcp.Collect | backend/app/services/mcp.py:273-283 | delivered results contribute their jobs and their label to the successes; failed ones contribute "label: message" errors; counts add up to the results |
| Mcp.ByNewest | backend/app/services/mcp.py:286 | sorting by posted date keeps exactly the same jobs |
| Mcp.StrLeTotalOrder | backend/app/services/mcp.py:286 | dates compare as strings, a total order |
| Mcp.ByNewestOrdered | backend/app/services/mcp.py:286 | jobs come newest first, and jobs of equal date keep their order |
| Mcp.Labels | backend/app/services/mcp.py:276-283 | there is one label per queried board |
| Mcp.BoardResults | backend/app/services/mcp.py:258-269 | the outcomes are those of the queried boards, in query order |
| Mcp.AggregateWith | backend/app/services/mcp.py:249-317 | aggregation, under either labelling, answers as `aggregate_jobs` stamped with the clock; the lemmas below state its contents for both labellings |
| Mcp.AggregateAsWritten | backend/app/services/mcp.py:249-317 | as written, aggregation labels results by position and answers as `aggregate_jobs` |
| Mcp.AggregateJobs | backend/app/services/mcp.py:308-317 | corrected aggregation fails only on a non-slicing limit or on non-container sources |
| Mcp.AggregateJobsNewestFirst | backend/app/services/mcp.py:255 | under either labelling, aggregated jobs are newest first; at most `total` are returned; 20 by default when more were found |
| Mcp.AggregateJobsProvenance | backend/app/services/mcp.py:276-281 | under either labelling, every aggregated job was delivered by a board named in sources |
| Mcp.AggregateErrorsNone | backend/app/services/mcp.py:295 | under either labelling, errors are None iff every named board delivered |
| Mcp.GatheredErrorsEmpty | backend/app/services/mcp.py:276-283 | under either labelling, no error is gathered iff every named board delivered |
| Mcp.AggregateCreditsBoards | backend/app/services/mcp.py:276-283 | corrected labels: successful sources are exactly the names of the named boards that delivered |
| Mcp.GatheredCreditsBoards | backend/app/services/mcp.py:276-283 | gathered successes are exactly the names of the named boards that delivered |
| Mcp.PositionalLabelsMisnameBoards | backend/app/services/mcp.py:276-283 | an example: for sources ["monster", "linkedin"], as written LinkedIn's jobs are credited to "monster"; the corrected version credits "linkedin" |
| Mcp.OneBoardCredited | backend/app/services/mcp.py:276-283 | with one board queried and delivering, the one successful source is that board's label |
| Mcp.AsWrittenCreditsPositions | backend/app/services/mcp.py:273-283 | as written, a value is a successful source iff it is `sources[i]` for some position i whose queried board delivered |
| Mcp.LabelsAgree | backend/app/services/mcp.py:260-283 | positional and per-board labels agree iff sources is a list whose first entries name the queried boards in query order |
| Mcp.CollectFirstLabelRaises | backend/app/services/mcp.py:276 | a label that raises for the first result aborts the whole collection with that error |
| Mcp.AsWrittenDictSourcesFail | backend/app/services/mcp.py:276 | as written, dict sources naming a known board fail the tool with the KeyError text "0" |
| Mcp.AgreeingLabelsAggregateAlike | backend/app/services/mcp.py:249-317 | when the two labellings agree, the as-written aggregation equals the corrected one |
| Mcp.DefaultSourcesLabelCorrectly | backend/app/services/mcp.py:255 | with the default sources the as-written aggregation equals the corrected one |
| Mcp.CompanyResearch | backend/app/services/mcp.py:333-389 | research always succeeds for the given company; a truthy domain is kept, otherwise the domain is the lowercased company name without spaces plus ".com" |
| Mcp.BoardOutcomes | backend/app/services/mcp.py:258-269 | inside the service every board returns its own execute result |
| Mcp.ExecuteTool | backend/app/services/mcp.py:408-433 | an unknown tool gives "Tool 'X' not found"; failed parameter validation gives "Invalid parameters for tool 'X'" and runs nothing; the result names the requested tool |
| Mcp.DefaultSourcesExecuteAlike | backend/app/services/mcp.py:408-433 | for parameters with the default sources, executing a tool gives the same result under either labelling |
| Mcp.ServiceAggregateHasNoErrors | backend/app/services/mcp.py:44-97 | since the boards never raise, aggregation through the service reports no errors, under either labelling |
| Mcp.ListTools | backend/app/services/mcp.py:435-443 | one name and description per registered tool, in registry order |
| Mcp.GetToolInfo | backend/app/services/mcp.py:445-453 | information exists iff the name is registered, and is that tool's list entry |
| Tasks.SaveJob | backend/app/tasks.py:440-470 | a listing with the same external id is returned unchanged, nothing inserted; otherwise a bad date raises, a missing id is refused with the database's error, and with an id an active listing with empty requirements and the job's fields is appended |
| Tasks.SaveJobKeepsExternalIdsUnique | backend/app/tasks.py:444-466 | saving keeps external ids unique |
| Tasks.SaveJobIdempotent | backend/app/tasks.py:444-450 | saving the same job again returns the same row and changes nothing |
| Tasks.SaveJobs | backend/app/tasks.py:114-118 | saving a job list keeps every earlier listing and saves the jobs in order; it stops at the first unlisted job whose date is bad or whose insert is refused for lack of an id, with that error |
| Tasks.SaveJobsKeepsExternalIdsUnique | backend/app/tasks.py:114-118 | saving a job list keeps external ids unique |
| Tasks.SaveJobsOfListedJobs | backend/app/tasks.py:444-450 | saving jobs that are all listed already changes nothing |
| Tasks.SaveJobsAgainChangesNothing | backend/app/tasks.py:114-118 | saving the same job list a second time changes nothing |
| Tasks.AsWrittenSaveJobsAddNothing | backend/app/tasks.py:453-464 | as written, no id is set, so saving a job list adds nothing, and it fails iff some job is not listed yet |
| Tasks.SaveJobMatch | backend/app/tasks.py:473-507 | the upsert on (user, cv, job) updates only score, analysis and update time of an existing match; a new match without an id is refused with the database's error, otherwise a "pending" match is appended |
| Tasks.SaveJobMatchKeepsKeysUnique | backend/app/tasks.py:477-503 | upserting keeps (user, cv, job) keys unique |
| Tasks.SaveJobMatchTwice | backend/app/tasks.py:477-507 | when the first save succeeds, saving the same key again succeeds and leaves one record carrying the second score, analysis and time |
| Tasks.SaveMatches | backend/app/tasks.py:166-174 | one match is saved per entry, in order, keyed by the CV and the entry's job, with its score; it stops only at a new match refused for lack of an id |
| Tasks.SaveJobMatchKeepsKeys | backend/app/tasks.py:473-506 | saving one match removes no (user, CV, job) key and leaves the saved key in the table |
| Tasks.SaveMatchesKeepsKeysUnique | backend/app/tasks.py:166-174 | saving a run's matches keeps (user, cv, job) keys unique |
| Tasks.FindOrCreateSkill | backend/app/tasks.py:516-525 | the skill of the lowercased name is found, or, given an id, created with category "Technical" and description "Skill: name"; without an id the insert is refused |
| Tasks.SaveSkillRecommendation | backend/app/tasks.py:510-559 | the upsert on (user, skill) stores the given fields and either updates in place or appends a "pending" recommendation; it fails only when a new skill or recommendation gets no id, and then stores no recommendation |
| Tasks.SaveSkillRecommendationKeepsKeysUnique | backend/app/tasks.py:510-559 | skill names and (user, skill) keys stay unique |
| Tasks.ReadRecommendation | backend/app/tasks.py:270-277 | a recommendation is read iff skill, priority, reason and target_level are present and skill is text; resources default to []; a missing skill raises KeyError |
| Tasks.SaveRecommendations | backend/app/tasks.py:269-278 | recommendations are saved in order until the first that is unreadable or whose insert is refused for lack of an id, whose error is reported; with ids, only unreadable ones stop it |
| Tasks.ActiveCvs | backend/app/tasks.py:418-421 | exactly the user's active CVs are selected |
| Tasks.RelevantJobs | backend/app/tasks.py:424-431 | at most 50 active listings posted within 30 days, and all of them when there are no more than 50 |
| Tasks.MarkFailed | backend/app/tasks.py:80-87 | the failure record (status "failed", failure time, message) reaches the first CV with the id only when its parsed data is None or empty, since an in-place change of a non-empty JSON value is not saved; otherwise nothing changes |
| Tasks.ProcessCvTask | backend/app/tasks.py:27-91 | only rows with the CV's id change; "processing" is saved only for a CV without parsed data; success leaves the CV with the placeholder text and the completed analysis, having saved "completed"; a saved "failed" is the last status and only on a failure; a CV the user does not own raises "CV not found", and one whose id no row has records no status; one matching request is queued iff the user owns the CV |
| Tasks.ProcessCvFailsWithoutStartTime | backend/app/tasks.py:50-91 | replacing parsed data drops the start time, so the duration read raises KeyError after "completed" was saved; the failure mark is lost on the non-empty analysis, so the CV stays "completed" with the matching request queued |
| Tasks.ProcessCvFailsOnFallback | backend/app/tasks.py:49-71 | when the AI call fails the task still fails, on the missing start time |
| Tasks.ProcessCvMarksForeignCvFailed | backend/app/tasks.py:80-87 | a CV of another user is reported not found and nothing is queued; the failure record is written onto that CV iff its parsed data is None or empty |
| Tasks.ListingIds | backend/app/tasks.py:123 | the saved listings' ids, in order |
| Tasks.StoreSearch | backend/app/tasks.py:94-135 | only job listings change; a failed search raises "Job search failed"; otherwise the found jobs are saved, the task fails iff saving stops, with its error, and on success each found job is saved, in order, under its own id, and the i-th matching request is for the i-th active CV with the saved listings' ids |
| Tasks.SearchJobsTask | backend/app/tasks.py:94-135 | the task stores the correctly labelled aggregate result whatever the labelling, since it asks for the boards in query order |
| Tasks.AsWrittenSearchStoresNothing | backend/app/tasks.py:114-118 | as written, a search stores no listing, and after a successful aggregation it succeeds iff every found job was already listed |
| Tasks.WorkflowMatches | backend/app/tasks.py:163 | a crashed workflow yields no matches; a completed one yields its matches, or fails on missing match results |
| Tasks.MatchAndSave | backend/app/tasks.py:162-182 | only matches change; a failed workflow changes nothing; saving fails only for lack of an id, with the database's error; success reports one created match per entry and leaves every entry's (user, CV, job) match in the table |
| Tasks.TriggerCvMatchingTask | backend/app/tasks.py:138-186 | with no relevant jobs the task returns early without running the workflow; only matches change |
| Tasks.TriggerJobMatchingTask | backend/app/tasks.py:189-235 | an unknown CV raises "CV not found"; only matches change |
| Tasks.MatchAndSaveCreatesNothing | backend/app/tasks.py:162-182 | the matching workflow has no job list, so no match is created and nothing changes |
| Tasks.TriggerCvMatchingCreatesNothing | backend/app/tasks.py:138-186 | CV matching never changes the database and reports the relevant jobs with zero matches created |
| Tasks.TriggerJobMatchingCreatesNothing | backend/app/tasks.py:189-235 | job matching for an existing CV creates nothing and reports all requested jobs as matched |
| Tasks.WorkflowRecommendations | backend/app/tasks.py:266 | a crashed workflow yields no recommendations; a completed one without any raises "not iterable" |
| Tasks.CvIds | backend/app/tasks.py:260 | one id per active CV |
| Tasks.GenerateRecommendationsTask | backend/app/tasks.py:238-289 | with no active CV the task returns early; only skills and recommendations change |
| Tasks.IntendedRecommendationsRaise | backend/app/tasks.py:266 | with the corrected router the workflow has no recommendations, so the task raises and saves nothing |
| Tasks.AsWrittenRecommendationsSaveNothing | backend/app/tasks.py:255-285 | as written, the workflow crashes, so the task reports zero recommendations and saves nothing |
| Tasks.CleanupOldCvs | backend/app/tasks.py:293-329 | the commit fails iff a deleted CV has a job match, and then no row changes; otherwise exactly the stale CVs whose file could be removed are deleted, counted, and their skill rows go with them |
| Tasks.CleanupKeepsActiveAndRecent | backend/app/tasks.py:299-304 | an active CV, or one created within 90 days, is never deleted |
| Tasks.SweepOldCvs | backend/app/tasks.py:305-314 | the loop deletes exactly the stale CVs whose file could be removed and counts them |
| Tasks.RefreshListings | backend/app/tasks.py:347-360 | each keyword is searched at its own clock readings; refreshing keeps every listing and external-id uniqueness; on success it counts jobs only from successful aggregations and every found job is listed; without ids it adds nothing |
| Tasks.SearchedJobCarriesItsReading | backend/app/services/mcp.py:58-204 | every job a keyword search finds is one board's listing built from that search's reading of the board's clock, with the id "board_timestamp" |
| Tasks.DistinctReadingsFindDistinctJobs | backend/app/services/mcp.py:58-204 | two searches whose board clocks read differently find jobs with different ids, so no keyword's jobs are listed under another keyword's ids |
| Tasks.StampsDiffer | backend/app/services/mcp.py:58-204 | two ids built from different boards or different timestamps differ |
| Tasks.SaveJobsKeepsUniqueWhen | backend/app/tasks.py:356-359 | saving a successful aggregation's jobs keeps external ids unique |
| Tasks.UpdateJobListings | backend/app/tasks.py:332-371 | only listings change; they keep uniqueness; each popular keyword is searched at its own clock readings; the count is over the successful aggregations and every found job is listed; without ids nothing changes |
| CvService.GetCv | backend/app/services/cv.py:21-23 | a CV is found iff the user owns one with that id |
| CvService.GetActiveCv | backend/app/services/cv.py:93-95 | the first active CV of the user, or none iff the user has none |
| CvService.SetActive | backend/app/services/cv.py:67-87 | only `is_active` of the owned CV changes; nothing changes and None is returned when the user does not own it |
| CvService.ActivateCv | backend/app/services/cv.py:67-76 | an owned CV becomes active; otherwise None |
| CvService.DeactivateCv | backend/app/services/cv.py:78-87 | an owned CV becomes inactive; otherwise None |
| CvService.SetActiveLastWins | backend/app/services/cv.py:67-87 | activating then deactivating (or any two) is the same as the last alone |
| CvService.DeleteCv | backend/app/services/cv.py:50-65 | nothing is deleted iff the user does not own the CV; the commit fails with the database's error iff the CV has a job match, changing nothing; otherwise exactly that CV row and its skill rows are removed |
| CvService.DeleteCvKeepsOtherUsersCvs | backend/app/services/cv.py:50-65 | deleting never removes another user's CV, nor another CV's skill rows |
| CvService.Wrapped | backend/app/services/cv.py:153-154 | failures are reported as "Text extraction failed: …" |
| CvService.ExtractTextFromCv | backend/app/services/cv.py:144-154 | PDF goes to the PDF extractor, Word types to the DOCX extractor, any other type fails as unsupported, all failures wrapped |
| CvService.ExtractionFailuresAreWrapped | backend/app/services/cv.py:144-154 | text comes from one of the two extractors; every failure carries the wrapper prefix |
| CvService.NormalisedName | backend/app/services/cv.py:196 | the name is lowercased and stripped; a missing name is empty; a name that is not text raises |
| CvService.FindOrCreateSkill | backend/app/services/cv.py:201-210 | the lookup by name finds the first skill of that name; otherwise a new skill is appended, unless its category is null or it gets no id, when the insert is refused; skill names stay unique and no id means the table is unchanged |
| CvService.EntryStep | backend/app/services/cv.py:195-221 | a blank name is skipped; a non-object entry or non-text name ends the loop without a refused insert; a new skill needs a category and an id; a new (CV, skill) pair is added with level defaulting to 1; skill names stay unique |
| CvService.AddedEntryStays | backend/app/services/cv.py:219-230 | an added skill and its pair stay in the tables as extraction continues |
| CvService.ExtractFrom | backend/app/services/cv.py:195-230 | tables only grow, and skills not at all without ids; every extracted skill has a non-empty name, a stored pair and a stored skill |
| CvService.ExtractAndSaveSkills | backend/app/services/cv.py:187-235 | a non-list `skills` value saves nothing; otherwise every reported skill is paired with the CV |
| CvService.ExtractFromKeepsSkillNamesUnique | backend/app/services/cv.py:201-210 | find-or-create keeps skill names unique |
| CvService.ExtractFromKeepsPairsUnique | backend/app/services/cv.py:213-221 | extraction keeps (CV, skill) pairs unique |
| CvService.BlankNamesAreSkipped | backend/app/services/cv.py:196-198 | entries whose names are blank change nothing and report nothing |
| CvService.KnownPairStops | backend/app/services/cv.py:213-235 | a second pair for the same skill is refused by the database, and the swallowed error ends extraction as a refusal |
| CvService.RepeatedNameReusesOneSkill | backend/app/services/cv.py:201-210 | two entries with the same normalised name create at most one skill and one pair |
| CvService.UnassignedIdStopsAtNewSkill | backend/app/services/cv.py:201-210 | without an id, the first entry naming a new skill ends extraction on the refused insert, committing nothing |
| CvService.AddCvSkill | backend/app/services/cv.py:237-274 | None unless the CV is owned and the skill exists; an existing pair is updated in place, otherwise one is appended |
| CvService.AddCvSkillKeepsPairsUnique | backend/app/services/cv.py:250-272 | adding keeps (CV, skill) pairs unique |
| CvService.RemoveCvSkill | backend/app/services/cv.py:296-312 | removal succeeds iff the CV is owned and the pair exists, and deletes exactly that pair |
| CvService.RemoveCvSkillLeavesNoPair | backend/app/services/cv.py:296-312 | after a removal the pair is gone |
| CvService.AddThenRemoveRestores | backend/app/services/cv.py:237-312 | adding a new pair and removing it restores the table |
| CvService.JoinSkills | backend/app/services/cv.py:283-294 | the rows' dicts, one per row in order, each joining the row with the first skill of its id (skill id, name, category, level, years); it raises the `NoneType` attribute error iff some row's skill is missing |
| CvService.JoinCvRowsFails | backend/app/services/cv.py:281-294 | joining the CV's rows fails iff some row of the CV names a missing skill |
| CvService.JoinCvRowsSound | backend/app/services/cv.py:281-294 | when no row of the CV names a missing skill, the join succeeds and every joined dict comes from a row of the CV and its skill |
| CvService.JoinCvRowsComplete | backend/app/services/cv.py:281-294 | when no row of the CV names a missing skill, the join succeeds and every row of the CV, joined with its skill, is among the dicts |
| CvService.GetCvSkills | backend/app/services/cv.py:276-294 | an unowned CV has no skills; for an owned one it raises iff a row's skill is missing, and otherwise lists exactly the CV's rows joined with their skills' names and categories |
| CvService.InsertCv | backend/app/models/database.py:73-86 | the insert succeeds iff id, path, size and MIME type are given and the id is new, appending an active CV |
| CvService.CvRow | backend/app/services/cv.py:107-116 | as written, the row built through the create schema has no id, path, size or MIME type; the corrected row has all four |
| CvService.DeactivateOthers | backend/app/services/cv.py:122-123 | every other CV of the user becomes inactive; other users' CVs are untouched |
| CvService.ProcessCv | backend/app/services/cv.py:97-142 | failure removes the file; a failure before the insert changes no table, and a later one is the pending-rollback error with the CV row kept; success adds one active CV with the upload's path, name, size and type |
| CvService.AsWrittenProcessingAlwaysFails | backend/app/services/cv.py:107-116 | as written, once text is extracted the insert always fails and the file is removed |
| CvService.RefusedExtractionKeepsCv | backend/app/services/cv.py:116-142 | once the CV is inserted, processing fails iff the skill loop ended on a refused insert; then the CV row and the committed skills stay, no CV is switched off, and the file is removed |
| CvService.UnassignedSkillIdsFailAfterCv | backend/app/services/cv.py:201-210 | without skill ids, an analysis naming a new skill first fails processing after committing the CV row alone |
| CvService.ProcessedCvIsOnlyActive | backend/app/services/cv.py:116-123 | after corrected processing the new CV is the user's only active CV and other users are untouched |
| CvService.OnlyNewCvStaysActive | backend/app/services/cv.py:122-123 | appending an active CV and deactivating the others leaves it the only active CV |
| CvEndpoints.TrimTrailingSlashes | backend/app/api/v1/endpoints/cvs.py:38 | the path loses only trailing slashes |
| CvEndpoints.BaseName | backend/app/api/v1/endpoints/cvs.py:38 | a path's last component holds no slash |
| CvEndpoints.Suffix | backend/app/api/v1/endpoints/cvs.py:38 | a suffix is empty or a dot followed by text without dots or slashes |
| CvEndpoints.SuffixOfStemAndExtension | backend/app/api/v1/endpoints/cvs.py:38 | a name made of a stem and an extension has that extension as its suffix |
| CvEndpoints.StoredPathKeepsExtension | backend/app/api/v1/endpoints/cvs.py:53-58 | the stored file name, a uuid plus the validated extension under the upload directory, has that extension again |
| CvEndpoints.BaseNameAfterSlash | backend/app/api/v1/endpoints/cvs.py:57-58 | the last component of "dir/name" is the name |
| CvEndpoints.Answer | backend/app/api/v1/endpoints/cvs.py:81-85 | as written, every failure becomes 500 "CV upload failed: …"; with re-raising, an HTTP failure keeps its status and detail |
| CvEndpoints.MimeOf | backend/app/api/v1/endpoints/cvs.py:72 | the MIME type is the content type unless it is missing or empty, which give application/octet-stream |
| CvEndpoints.Validate | backend/app/api/v1/endpoints/cvs.py:32-50 | accepted iff the filename is non-empty, its lowercased suffix is .pdf, .doc or .docx, and the size is at most 10485760; the rejections are 400s |
| CvEndpoints.SizeLimitIsInclusive | backend/app/api/v1/endpoints/cvs.py:46-50 | a size of exactly 10485760 is accepted and one more byte is rejected as too large |
| CvEndpoints.UploadCv | backend/app/api/v1/endpoints/cvs.py:23-85 | an error leaves no stored file and changes nothing unless the CV row was committed before a pending-rollback failure; a rejection gets the handler's answer; an empty or missing content type defaults to application/octet-stream; success stores the file as uuid plus extension and returns the active CV with the upload's name, size and type |
| CvEndpoints.AsWrittenRejectionsAre500 | backend/app/api/v1/endpoints/cvs.py:81-85 | as written, every validation rejection comes out as 500 "CV upload failed: 400: detail" |
| CvEndpoints.CatchAllBadRequest | backend/app/api/v1/endpoints/cvs.py:81-85 | the catch-all turns a 400 into a 500 whose detail quotes it |
| CvEndpoints.StatusText400 | backend/app/api/v1/endpoints/cvs.py:84 | an example: the status prints as "400" |
| CvEndpoints.IntendedRejectionsAre400 | backend/app/api/v1/endpoints/cvs.py:139-140 | re-raising as the other endpoints do, rejections keep their 400 and detail |
| CvEndpoints.AsWrittenUploadsNeverSucceed | backend/app/api/v1/endpoints/cvs.py:66-85 | as written, an accepted upload always ends in a 500 carrying the database's error |
| CvEndpoints.GetCvEndpoint | backend/app/api/v1/endpoints/cvs.py:119-145 | 404 "CV not found" iff the user does not own the CV; for an owned CV with any skill, 500 "Failed to retrieve CV: " and the validation error; otherwise that CV |
| CvEndpoints.ActivateEndpoint | backend/app/api/v1/endpoints/cvs.py:148-174 | 404 iff not owned, changing nothing; otherwise the active CV |
| CvEndpoints.DeactivateEndpoint | backend/app/api/v1/endpoints/cvs.py:177-203 | 404 iff not owned, changing nothing; otherwise the inactive CV |
| CvEndpoints.ActivateThenGet | backend/app/api/v1/endpoints/cvs.py:119-174 | an activated CV is then retrieved as active when it has no skill, and otherwise the retrieval is the 500 |
| CvEndpoints.DeleteEndpoint | backend/app/api/v1/endpoints/cvs.py:206-231 | 404 iff not owned and 500 "Failed to delete CV: " iff the CV has a job match, both changing nothing; otherwise one CV fewer and its skill rows gone |
| CvEndpoints.DeleteThenGetIsNotFound | backend/app/api/v1/endpoints/cvs.py:206-231 | with unique ids, the CV is not found after a deletion exactly when the deletion was not refused |
| CvEndpoints.AddSkillEndpoint | backend/app/api/v1/endpoints/cvs.py:234-261 | 404 iff the CV is not owned or the skill is unknown, changing nothing; otherwise the table is the service's; the answer is the saved pair with its skill when the response schema accepts them (level 1 to 5, years absent or non-negative, text category), else a 500 with the table still changed |
| CvEndpoints.GetCvSkillsEndpoint | backend/app/api/v1/endpoints/cvs.py:264-282 | never a 404; empty for an unowned CV; a 500 "Failed to retrieve CV skills: …" iff an owned CV has a row whose skill is missing; otherwise only the CV's rows joined with their skills |
| CvEndpoints.AddedSkillIsListed | backend/app/api/v1/endpoints/cvs.py:234-282 | when every skill the CV's rows name exists, an added skill appears in the CV's skill list with the name and category of the skill it was answered with |
| Schemas.ParseUserRole | backend/app/models/schemas.py:7-9 | a role parses iff it is one of the enum's values, and round-trips |
| Schemas.ParseJobStatus | backend/app/models/schemas.py:12-16 | a job status parses iff it is one of the enum's values, and round-trips |
| Schemas.ParseRecommendationStatus | backend/app/models/schemas.py:19-22 | a recommendation status parses iff it is one of the enum's values, and round-trips |
| Schemas.ParseRunStatus | backend/app/models/schemas.py:25-36 | agent and tool run statuses parse iff they are one of the enum's values, and round-trip |
| Schemas.BoundErrors | backend/app/models/schemas.py:72-75 | a bound error is reported iff the value is out of range, naming the field and the side |
| Schemas.Required | backend/app/models/schemas.py:41 | a required field is reported iff it is missing |
| Schemas.RequiredInt | backend/app/models/schemas.py:149 | a required bounded integer is accepted iff present and in range |
| Schemas.OptionalInt | backend/app/models/schemas.py:150 | an optional bounded integer is accepted iff absent or in range |
| Schemas.RealBoundErrors | backend/app/models/schemas.py:246 | a bounded number is accepted iff it is in range |
| Schemas.MemberErrors | backend/app/models/schemas.py:248 | an enum field is accepted iff it parses |
| Schemas.ValidateUserCreate | backend/app/models/schemas.py:40-46 | a user is valid iff email and password are given and the password has at least 8 characters |
| Schemas.ValidateProfile | backend/app/models/schemas.py:64-75 | a profile is valid iff experience is within 0..50 and salaries are at least 0; currency defaults to "USD" |
| Schemas.ProfileSalariesAreNotOrdered | backend/app/models/schemas.py:73-74 | an example: nothing requires the minimum salary to be at most the maximum |
| Schemas.ValidateCvSkill | backend/app/models/schemas.py:147-150 | a CV skill is valid iff the skill id is given, level is within 1..5 and years, if given, are at least 0 |
| Schemas.ValidateJobListing | backend/app/models/schemas.py:167-180 | a listing is valid iff the required fields are given and salaries are at least 0; currency defaults to "USD", remote to false |
| Schemas.ValidateJobSkill | backend/app/models/schemas.py:200-203 | a job skill is valid iff the skill id is given and level, if given, is within 1..5; required defaults to true |
| Schemas.ValidateJobSearch | backend/app/models/schemas.py:220-227 | a search is valid iff keywords are given and salaries are at least 0; remote defaults to false |
| Schemas.ValidateJobMatch | backend/app/models/schemas.py:245-249 | a match is valid iff the score is within 0..100 and the status parses; status defaults to pending |
| Schemas.ValidateRecommendation | backend/app/models/schemas.py:278-283 | a recommendation is valid iff priority and target level are within 1..5 and the status parses; status defaults to pending |
| Schemas.ValidateExecution | backend/app/models/schemas.py:303-309 | an agent or tool run is valid iff name and input are given and the time is at least 0; status defaults to pending |
| Schemas.SaveJobMatchKeepsStatusesValid | backend/app/tasks.py:494-501 | match upserts that succeed only ever store job statuses the schema accepts |
| Store.FirstWhere | backend/app/tasks.py:445-447 | `.first()` finds the earliest matching row, or reports that none matches |
| Store.FirstWhereFinds | backend/app/tasks.py:445-447 | the earliest matching row is the one found |
| Store.Filter | backend/app/tasks.py:418-421 | a query keeps exactly the matching rows |
| Store.AppendKeepsUnique | backend/app/tasks.py:452-466 | inserting a row with a new key keeps keys unique |
| Store.ReplaceKeepsUnique | backend/app/tasks.py:484-491 | updating a row in place without changing its key keeps keys unique |
| StableSort.SortDescSorted | backend/app/agents/job_agent_graph.py:314 | the sort's output is non-increasing by key |
| StableSort.SortDescStable | backend/app/agents/job_agent_graph.py:314 | the sort keeps each key's items in input order |
| StableSort.SortedStableUnique | backend/app/services/mcp.py:286 | any ordered output that keeps each key's items in order is the sort's output |

## Left out

- The chat model call and its prompts: the reply is an input (`Outcome<string>`), and the prompts' wording is not modelled.
- `json.loads`: an abstract decoder from the extracted text to an object or a failure.
- The clock: readings are `Clock` parameters (epoch text and ISO text). A step that reads `datetime.now()` several times without waiting in between gets one reading. Each keyword search of the listing refresh gets its own readings, one for the aggregator and one per board, because the searches run one after another and every board sleeps a second first. Elapsed time is one number.
- `asyncio.gather` and `asyncio.sleep`: the boards' outcomes are a function of the board, so concurrency plays no part.
- Celery plumbing (`.delay`, routing, retries): a queued matching request is recorded as its arguments.
- Tasks: the tasks are plain `def` functions that use `await`, which Python rejects when compiling `backend/app/tasks.py`; the model describes the evidently intended `async def` tasks.
- CvService and CvEndpoints: `backend/app/services/cv.py:6` imports `CVSkill`, which `backend/app/models/database.py` does not declare, so the import fails and neither module loads; the model describes the service with a declared `CVSkill`: a (CV, skill) association row with a unique pair, level and years, an id assigned on insert, and a `skill` relationship to its `Skill`, which the skill dicts and `CVSkillResponse` read.
- The boards' job fields `experience` and `remote` (LinkedIn) and `company_rating` and `company_reviews` (Glassdoor), and company research's constant fields other than name, domain and description: nothing in the core reads them.
- Lowercasing covers ASCII letters only; `strip` removes Python's full set of whitespace characters (`Common.IsSpace`).
- Floating-point values: JSON numbers and scores are integers, except the schema fields `match_score` and `execution_time`, which are reals.
- Mcp.SourceError: the error is the label and the message as a pair rather than the formatted "label: message" text.
- AgentGraph.IntegrateMcpStep: a tool name that is not text, or parameters that are not a dict, are handed to an abstract `untypedCall`.
- AgentGraph.SortByScore: the message for incomparable scores is one fixed text, not Python's exact type-naming message; list-valued scores, which Python also orders, are treated as incomparable; booleans count as numbers.
- LangGraph raising KeyError for a label outside the path map, and its plain `Graph` refusing a second unconditional edge from the same node with the error "Already found path for node …", are assumed from its documented behaviour; the framework is not part of this model.
- AgentGraph: `backend/app/agents/job_agent_graph.py:102` and `:107` both add the edge from recommendation generation to output formatting, so building the graph raises (see Findings); the rest of the model describes the graph with that edge once.
- SQLAlchemy sessions and commits are modelled only where they change the outcome. A change is written when it is made, except that an in-place change to a non-empty JSON value loaded from the database is lost, as a plain JSON column does not track it (the failure mark of `process_cv`). Deleting a CV also deletes its `cv_skills` rows, and fails at commit when a job match refers to it. A refused insert is an error, and the only later effect of the session it leaves needing a rollback that is modelled is the failure of the CV service's final update.
- Every table's id is a string primary key with no default, and the inserting code sets none. `NewIds` selects between that (`Unassigned`, the insert is refused) and the evidently intended assignment (`Assigned`, an id function standing for uuid generation).
- Database error texts are a `dbError` parameter, and the error of a query on a session needing a rollback is `rollbackError`.
- Tasks.ProcessCvTask: the processing duration (a float) is not modelled; parsing a stored time that `fromisoformat` rejects is not modelled; the start time written at `backend/app/tasks.py:41` is not modelled, since line 50 replaces it before anything reads it.
- Tasks.TriggerCvMatchingTask: queued match identifiers are modelled as the ids passed to the workflow.
- Tasks.CleanupOldCvs: whether a file can be removed is a `removable` parameter; the files the loop removed before a failed commit are not tracked.
- CvService.DeleteCv: the removal of the CV's file, which happens before the commit and whose failure is ignored, is not tracked; so a refused deletion leaves the row but not the file.
- The tasks' own `_extract_cv_text` and `_extract_and_save_skills` are placeholders that return fixed values.
- The tasks' skill lookup lowercases the name without stripping it, unlike the CV service; both are kept as written.
- `pathlib` normalisation beyond trailing slashes and Starlette's string format of upload fields.
- `generate_user_recommendations` (`backend/app/tasks.py:374-401`) only queues one request per user: Celery fan-out.
- `get_user_cvs` with offset and limit (`backend/app/api/v1/endpoints/cvs.py:88-116`) and `update_cv` (`backend/app/services/cv.py:36-48`): plain query and update wrappers.
- EntryStep: the extracted skill dicts leave out the pair's `id` (`backend/app/services/cv.py:224`); a pair is identified by its unique (CV, skill) key instead.
- CvService.GetCvSkills: the dicts leave out the pair's `id` (`backend/app/services/cv.py:288`), for the same reason.
- CvEndpoints.AddSkillEndpoint: the answer leaves out the pair's `id` and the skill's `created_at` and `description`; the skill's `name` is always text in the model.
- CvEndpoints.UploadCv: `writeError` covers only a failure to create the directory or write the file.
- The non-upload CV endpoints' other 500 paths (a lost database connection and the like): outside the modelled services' behaviour. The validation failure of `get_cv` and the refused commit of `delete_cv` are modelled.
- E-mail syntax (`EmailStr`), unconstrained optional text fields, pydantic's coercion and its message texts, the response schemas and the token schema.
- The schema validators take already typed inputs; type errors are not modelled.

## Findings

| source | as written | input that shows it | evidently intended | confidence | as-written member | corrected member |
|---|---|---|---|---|---|---|
| backend/app/agents/job_agent_graph.py:79-90 | the router returns "recommendation_generation" and "mcp_integration", which are not keys of the conditional edge map | task "recommendations" with `user_id` given | the labels lead to their nodes | high; not executed | AgentGraph.AsWrittenRouterCrashes | AgentGraph.IntendedWorkflowCompletes |
| backend/app/agents/job_agent_graph.py:102-107 | the edge from recommendation_generation to output_formatting is added twice; a plain LangGraph `Graph` refuses the second, so `_build_graph` raises and the module-level `JobAgentGraph()` (line 432) fails on import | none: importing the module | the edge is added once | medium; not executed (library behaviour) | AgentGraph.AsWrittenGraphIsRefused | AgentGraph.IntendedGraphIsBuilt |
| backend/app/services/ai.py:310 | the message uses the undefined name `content`, so every call raises and every analysis returns its fallback | any reply | the prompt is sent as the message content, through an `AsyncOpenAI` client, since the call awaits `chat.completions.create` (lines 294-301 build the synchronous client) | high; not executed | AiService.AsWrittenAlwaysFallsBack | AiService.CorrectedCallReturnsDecodedReply |
| backend/app/services/mcp.py:276-283 | result i is labelled `sources[i]`, but results exist only for the known boards, in a fixed order | sources ["monster", "linkedin"] | each result is credited to its own board | high; not executed | Mcp.AsWrittenCreditsPositions | Mcp.AggregateCreditsBoards |
| backend/app/services/cv.py:107-116 | the CV is built from `CVCreate`, which has no path, size or MIME type and no id, so the NOT NULL insert fails | any upload whose text extracts | all four columns are filled | medium; not executed | CvService.AsWrittenProcessingAlwaysFails | CvService.ProcessedCvIsOnlyActive |
| backend/app/api/v1/endpoints/cvs.py:81-85 | `except Exception` also catches the endpoint's own 400s and answers 500 "CV upload failed: 400: …" | filename "cv.txt" | 400 with the original detail, as the other endpoints do | high; not executed | CvEndpoints.AsWrittenRejectionsAre500 | CvEndpoints.IntendedRejectionsAre400 |
| backend/app/tasks.py:453-464 | the job listing, like the match (lines 494-501), skill (lines 518-522, and `backend/app/services/cv.py:203-207`) and recommendation (lines 545-553) rows, is built without an id, and the id columns (`backend/app/models/database.py:97`, 112, 160, 185) are primary keys with no default, so inserting it is refused | a search that finds a job not yet listed | every new row gets a fresh id | medium; not executed | Tasks.AsWrittenSaveJobsAddNothing | Tasks.SaveJobsKeepsExternalIdsUnique |
