/** The job agent workflow: a state record threaded through an input
    validation step, a router that sends the state to one task's steps or to
    error handling, the task steps themselves, and two terminal envelope
    builders; a driver runs the graph and turns an escaping exception into
    a failure record.

    The graph is an explicit edge table. The AI and tool services are the
    models of `AiService` and `Mcp`; the chat model's replies, the JSON
    decoder, the clocks and the elapsed time are fields of `Env`. */
module AgentGraph {
  import opened Common
  import AiService
  import Mcp
  import StableSort

  type Job = Mcp.Job

  // ---------------------------------------------------------------------
  // State

  /** What `analysis_results` holds after CV analysis or job analysis. */
  datatype AnalysisRecord =
    | CvAnalysisRecord(cvAnalysis: JsonObject, timestamp: string)
    | JobAnalysisRecord(jobAnalysis: seq<Job>, timestamp: string)

  /** One entry of `match_results["matches"]`. */
  datatype MatchEntry = MatchEntry(jobId: string, matchScore: Json, analysis: JsonObject)

  datatype MatchResults = MatchResults(matches: seq<MatchEntry>, cvId: Json, jobIds: Json, timestamp: string)

  /** A task-specific value placed in the formatted output. */
  datatype Slot =
    | CvSlot(cv: Option<JsonObject>)
    | AnalysisSlot(analysis: Option<AnalysisRecord>)
    | JobsSlot(jobs: Option<seq<Job>>)
    | ToolSlot(tool: Option<Mcp.ToolResult>)
    | MatchesSlot(matchResults: Option<MatchResults>)
    | RecommendationsSlot(recommendations: Option<seq<JsonObject>>)

  /** `final_output`: built by output formatting or by error handling, whose
      status is always "failed". */
  datatype Envelope =
    | Formatted(taskType: string, userId: string, timestamp: string, executionTime: Option<real>,
                status: string, payload: map<string, Slot>, error: Option<string>)
    | ErrorReport(taskType: string, userId: string, timestamp: string, executionTime: Option<real>,
                  error: Option<string>)
  {
    function Status(): string {
      if Formatted? then status else "failed"
    }
  }

  datatype AgentState = AgentState(
    userId: string,
    taskType: string,
    inputData: JsonObject,
    cvData: Option<JsonObject>,
    jobData: Option<seq<Job>>,
    analysisResults: Option<AnalysisRecord>,
    matchResults: Option<MatchResults>,
    recommendations: Option<seq<JsonObject>>,
    mcpResults: Option<Mcp.ToolResult>,
    finalOutput: Option<Envelope>,
    error: Option<string>,
    executionTime: Option<real>)

  /** `state.get("error")` is truthy. */
  predicate HasError(s: AgentState) {
    s.error.Some? && s.error.value != ""
  }

  /** `state["error"] = message` */
  function Fail(s: AgentState, message: string): (r: AgentState)
    requires message != ""
    ensures HasError(r) && r.error == Some(message)
  {
    s.(error := Some(message))
  }

  /** The state `run_workflow` starts from. */
  function InitialState(userId: string, taskType: string, input: JsonObject): AgentState {
    AgentState(userId, taskType, input, None, None, None, None, None, None, None, None, None)
  }

  // ---------------------------------------------------------------------
  // Environment

  /** What the workflow asks the chat model about. */
  datatype AiRequest =
    | CvRequest(text: string)
    | JobRequest(job: Job)
    | MatchRequest(cvAnalysis: JsonObject, jobAnalysis: JsonObject)
    | RecommendationRequest(profile: JsonObject, matches: seq<MatchEntry>)

  /** The collaborators of one run: the chat model's outcome per request,
      the JSON decoder, the clock readings, the elapsed seconds the driver
      measures, and the outcome of a tool call whose name is not a string or
      whose parameters are not an object (Python's type errors there are not
      modelled). */
  datatype Env = Env(
    ai: AiRequest -> Outcome<string>,
    parse: AiService.JsonParser,
    clock: Clock,
    boardClock: Mcp.Provider -> Clock,
    elapsed: real,
    untypedCall: (Json, Json) -> Mcp.ToolResult,
    labelling: Mcp.Labelling)

  // ---------------------------------------------------------------------
  // The graph

  datatype Node =
    | Start
    | InputValidation
    | CvAnalysis
    | JobSearch
    | JobAnalysis
    | Matching
    | RecommendationGeneration
    | McpIntegration
    | OutputFormatting
    | ErrorHandling
    | End

  function NodeName(n: Node): string {
    match n
    case Start => "__start__"
    case InputValidation => "input_validation"
    case CvAnalysis => "cv_analysis"
    case JobSearch => "job_search"
    case JobAnalysis => "job_analysis"
    case Matching => "matching"
    case RecommendationGeneration => "recommendation_generation"
    case McpIntegration => "mcp_integration"
    case OutputFormatting => "output_formatting"
    case ErrorHandling => "error_handling"
    case End => "__end__"
  }

  /** The unconditional edges of the graph, each once. */
  const StaticEdges: set<(Node, Node)> := {
    (Start, InputValidation),
    (CvAnalysis, OutputFormatting),
    (JobSearch, JobAnalysis),
    (JobAnalysis, OutputFormatting),
    (Matching, RecommendationGeneration),
    (RecommendationGeneration, OutputFormatting),
    (McpIntegration, OutputFormatting),
    (OutputFormatting, End),
    (ErrorHandling, End)
  }

  /** The `add_edge` calls of `_build_graph`, in order: the edge from
      recommendation generation to formatting is added twice. */
  const AsWrittenEdgeCalls: seq<(Node, Node)> := [
    (Start, InputValidation),
    (CvAnalysis, OutputFormatting),
    (JobSearch, JobAnalysis),
    (JobAnalysis, OutputFormatting),
    (Matching, RecommendationGeneration),
    (RecommendationGeneration, OutputFormatting),
    (McpIntegration, OutputFormatting),
    (RecommendationGeneration, OutputFormatting),
    (OutputFormatting, End),
    (ErrorHandling, End)]

  /** The same calls with the repeated edge added once. */
  const IntendedEdgeCalls: seq<(Node, Node)> := AsWrittenEdgeCalls[..7] + AsWrittenEdgeCalls[8..]

  function AlreadyFoundPathMessage(n: Node): string {
    "Already found path for node '" + NodeName(n) + "'.\nFor multiple edges, use StateGraph with an annotated state key."
  }

  /** Call `j` adds an edge from a node an earlier call already leaves. */
  predicate RepeatsStart(calls: seq<(Node, Node)>, j: int) {
    0 <= j < |calls| && exists i :: 0 <= i < j && calls[i].0 == calls[j].0
  }

  /** `Graph.add_edge`, from call `k` on, the edges of the earlier calls
      being in the graph: a plain LangGraph `Graph` (not a `StateGraph`)
      refuses an edge from a node that already has one. */
  function AddEdgesFrom(calls: seq<(Node, Node)>, k: nat): (r: Outcome<set<(Node, Node)>>)
    requires k <= |calls|
    requires forall j :: 0 <= j < k ==> !RepeatsStart(calls, j)
    ensures r.Ok? <==> forall j :: 0 <= j < |calls| ==> !RepeatsStart(calls, j)
    ensures r.Ok? ==> forall e :: e in r.value <==> e in calls
    ensures r.Raise? ==>
      exists j :: k <= j < |calls| && RepeatsStart(calls, j) && (forall i :: 0 <= i < j ==> !RepeatsStart(calls, i))
                  && r.msg == AlreadyFoundPathMessage(calls[j].0)
    decreases |calls| - k
  {
    if k == |calls| then Ok(set e | e in calls)
    else if RepeatsStart(calls, k) then Raise(AlreadyFoundPathMessage(calls[k].0))
    else AddEdgesFrom(calls, k + 1)
  }

  /** Building the graph from its `add_edge` calls. */
  function AddEdges(calls: seq<(Node, Node)>): (r: Outcome<set<(Node, Node)>>)
    ensures r.Ok? <==> forall j :: 0 <= j < |calls| ==> !RepeatsStart(calls, j)
    ensures r.Ok? ==> forall e :: e in r.value <==> e in calls
    ensures r.Raise? ==>
      exists j :: RepeatsStart(calls, j) && (forall i :: 0 <= i < j ==> !RepeatsStart(calls, i))
                  && r.msg == AlreadyFoundPathMessage(calls[j].0)
  {
    AddEdgesFrom(calls, 0)
  }

  /** As written, building the graph raises at line 107, the second edge
      from recommendation generation: `JobAgentGraph()` fails and the
      module does not load. */
  lemma AsWrittenGraphIsRefused()
    ensures AddEdges(AsWrittenEdgeCalls) == Raise(AlreadyFoundPathMessage(RecommendationGeneration))
  {
    var c := AsWrittenEdgeCalls;
    var starts := [Start, CvAnalysis, JobSearch, JobAnalysis, Matching, RecommendationGeneration, McpIntegration,
                   RecommendationGeneration];
    assert forall i :: 0 <= i < 8 ==> c[i].0 == starts[i];
    forall j | 0 <= j < 7
      ensures !RepeatsStart(c, j)
    {
      assert forall i :: 0 <= i < j ==> starts[i] != starts[j];
    }
    assert RepeatsStart(c, 7) by {
      assert c[5].0 == c[7].0;
    }
    var r := AddEdges(c);
    var j :| RepeatsStart(c, j) && (forall i :: 0 <= i < j ==> !RepeatsStart(c, i))
             && r.msg == AlreadyFoundPathMessage(c[j].0);
    assert j == 7;
  }

  /** With the edge added once, the graph is built with exactly the
      unconditional edges the model runs on. */
  lemma IntendedGraphIsBuilt()
    ensures AddEdges(IntendedEdgeCalls) == Ok(StaticEdges)
  {
    var c := IntendedEdgeCalls;
    assert c == [(Start, InputValidation), (CvAnalysis, OutputFormatting), (JobSearch, JobAnalysis),
                 (JobAnalysis, OutputFormatting), (Matching, RecommendationGeneration),
                 (RecommendationGeneration, OutputFormatting), (McpIntegration, OutputFormatting),
                 (OutputFormatting, End), (ErrorHandling, End)];
    forall j | 0 <= j < |c|
      ensures !RepeatsStart(c, j)
    {
    }
    var r := AddEdges(c);
    forall e
      ensures e in r.value <==> e in StaticEdges
    {
      assert e in c <==> e in StaticEdges;
    }
    assert r.value == StaticEdges;
  }

  /** The router's path map: the label it returns, resolved to a node. */
  const PathMap: map<string, Node> := map[
    "cv_analysis" := CvAnalysis,
    "job_search" := JobSearch,
    "matching" := Matching,
    "recommendations" := RecommendationGeneration,
    "mcp_search" := McpIntegration,
    "error" := ErrorHandling]

  /** The nodes reachable in one step. */
  function Succ(n: Node): set<Node> {
    if n == InputValidation then PathMap.Values
    else set e | e in StaticEdges && e.0 == n :: e.1
  }

  /** Depth of a node; every edge goes one level deeper or more. */
  function Rank(n: Node): nat {
    match n
    case Start => 0
    case InputValidation => 1
    case CvAnalysis => 2
    case JobSearch => 2
    case Matching => 2
    case McpIntegration => 2
    case JobAnalysis => 3
    case RecommendationGeneration => 3
    case OutputFormatting => 4
    case ErrorHandling => 4
    case End => 5
  }

  /** The node a task type is dispatched to. */
  function EntryNode(taskType: string): Option<Node> {
    if taskType == "cv_analysis" then Some(CvAnalysis)
    else if taskType == "job_search" then Some(JobSearch)
    else if taskType == "matching" then Some(Matching)
    else if taskType == "recommendations" then Some(RecommendationGeneration)
    else if taskType == "mcp_search" then Some(McpIntegration)
    else None
  }

  // ---------------------------------------------------------------------
  // Validation and routing

  /** The input keys each task type demands. */
  function RequiredKeys(taskType: string): seq<string> {
    match EntryNode(taskType)
    case Some(CvAnalysis) => ["cv_id"]
    case Some(JobSearch) => ["keywords"]
    case Some(Matching) => ["cv_id", "job_ids"]
    case Some(RecommendationGeneration) => ["user_id"]
    case Some(McpIntegration) => ["tool_name", "parameters"]
    case _ => []
  }

  function MissingInputMessage(taskType: string): string {
    match EntryNode(taskType)
    case Some(CvAnalysis) => "CV ID is required for CV analysis"
    case Some(JobSearch) => "Keywords are required for job search"
    case Some(Matching) => "CV ID and Job IDs are required for matching"
    case Some(RecommendationGeneration) => "User ID is required for recommendations"
    case Some(McpIntegration) => "Tool name and parameters are required for MCP search"
    case _ => ""
  }

  /** `_validate_input`: either leaves the state as it is or records the
      task's message as the error. It never raises. */
  function ValidateInput(s: AgentState): (r: AgentState)
    ensures r == s || (MissingInputMessage(s.taskType) != "" && r == Fail(s, MissingInputMessage(s.taskType)))
  {
    var t, d := s.taskType, s.inputData;
    if t == "cv_analysis" then
      if "cv_id" !in d then Fail(s, "CV ID is required for CV analysis") else s
    else if t == "job_search" then
      if "keywords" !in d then Fail(s, "Keywords are required for job search") else s
    else if t == "matching" then
      if "cv_id" !in d || "job_ids" !in d then Fail(s, "CV ID and Job IDs are required for matching") else s
    else if t == "recommendations" then
      if "user_id" !in d then Fail(s, "User ID is required for recommendations") else s
    else if t == "mcp_search" then
      if "tool_name" !in d || "parameters" !in d then Fail(s, "Tool name and parameters are required for MCP search") else s
    else s
  }

  /** `_route_by_task_type` as written: an error wins; otherwise the task's
      entry node is named by its node name, and an unknown task goes to
      "error". */
  function RouteAsWritten(s: AgentState): (key: string)
    ensures HasError(s) || EntryNode(s.taskType).None? ==> key == "error"
    ensures !HasError(s) && EntryNode(s.taskType).Some? ==> key == NodeName(EntryNode(s.taskType).value)
  {
    if HasError(s) then "error"
    else if s.taskType == "cv_analysis" then "cv_analysis"
    else if s.taskType == "job_search" then "job_search"
    else if s.taskType == "matching" then "matching"
    else if s.taskType == "recommendations" then "recommendation_generation"
    else if s.taskType == "mcp_search" then "mcp_integration"
    else "error"
  }

  /** The router returning path-map keys, so that every task type reaches
      its entry node. */
  function Route(s: AgentState): (key: string)
    ensures key in PathMap
    ensures PathMap[key] == if HasError(s) || EntryNode(s.taskType).None? then ErrorHandling
                              else EntryNode(s.taskType).value
  {
    if HasError(s) then "error"
    else if EntryNode(s.taskType).Some? then s.taskType
    else "error"
  }

  datatype Routing = AsWritten | Intended

  // ---------------------------------------------------------------------
  // Steps

  const MockCvText: string := "Sample CV text for analysis..."

  /** The stand-in profile used for matching and recommendations. */
  const MockProfile: JsonObject := map[
    "skills" := JArr([JObj(map["name" := JStr("JavaScript"), "level" := JNum(4)])]),
    "experience" := JObj(map["experience_years" := JNum(5)])]

  /** `_analyze_cv`: the AI's analysis of the stand-in CV text becomes both
      `cv_data` and the analysis record. */
  function AnalyzeCvStep(s: AgentState, env: Env): (r: AgentState)
    ensures "cv_id" !in s.inputData ==> r == Fail(s, "CV analysis failed: " + KeyErrorText("cv_id"))
    ensures "cv_id" in s.inputData ==>
      && r.cvData.Some?
      && r.analysisResults == Some(CvAnalysisRecord(r.cvData.value, env.clock.iso))
      && r.(cvData := s.cvData, analysisResults := s.analysisResults) == s
      && (env.ai(CvRequest(MockCvText)).Raise? ==> r.cvData.value == AiService.FallbackCvAnalysis)
  {
    if "cv_id" !in s.inputData then Fail(s, "CV analysis failed: " + KeyErrorText("cv_id"))
    else
      var analysis := AiService.AnalyzeCv(env.ai(CvRequest(MockCvText)), env.parse);
      s.(cvData := Some(analysis), analysisResults := Some(CvAnalysisRecord(analysis, env.clock.iso)))
  }

  /** `mcp_result.get("data", {}).get("jobs", [])` */
  function ResultJobs(r: Mcp.ToolResult): seq<Job> {
    if r.Succeeded? then
      match r.data
      case Listing(jobs, _, _) => jobs
      case Aggregate(jobs, _, _, _, _, _) => jobs
      case CompanyProfile(_, _, _) => []
    else []
  }

  /** The aggregate-search request `_search_jobs` sends. */
  function SearchParameters(input: JsonObject): (p: JsonObject)
    requires "keywords" in input
    ensures p.Keys == {"keywords", "location", "sources", "limit"}
    ensures p["keywords"] == input["keywords"] && p["limit"] == JNum(20)
    ensures p["location"] == Get(input, "location", JNull)
    ensures p["sources"] == JArr([JStr("linkedin"), JStr("indeed"), JStr("glassdoor")])
  {
    map["keywords" := input["keywords"],
        "location" := Get(input, "location", JNull),
        "sources" := Mcp.DefaultSources,
        "limit" := JNum(20)]
  }

  /** `_search_jobs`: the aggregate result is kept whole, and its jobs, or
      none when it failed, become `job_data`. A failed search is not an
      error of the workflow. */
  function SearchJobsStep(s: AgentState, env: Env): (r: AgentState)
    ensures "keywords" !in s.inputData ==> r == Fail(s, "Job search failed: " + KeyErrorText("keywords"))
    ensures "keywords" in s.inputData ==>
      && r.mcpResults.Some? && r.jobData.Some?
      && r.(jobData := s.jobData, mcpResults := s.mcpResults) == s
      && (r.mcpResults.value.Failed? ==> r.jobData == Some([]))
      && (!s.inputData["keywords"].JStr? ==>
            r.mcpResults.value == Mcp.Failed("aggregate_jobs", env.clock.iso, Mcp.InvalidParametersMessage("aggregate_jobs")))
  {
    if "keywords" !in s.inputData then Fail(s, "Job search failed: " + KeyErrorText("keywords"))
    else
      var result := Mcp.ExecuteTool("aggregate_jobs", SearchParameters(s.inputData), env.clock, env.boardClock, env.labelling);
      s.(jobData := Some(ResultJobs(result)), mcpResults := Some(result))
  }

  /** The stored result is the aggregate tool's answer to the search
      parameters. The search names the boards in the order they are
      queried, so that answer is the correctly labelled one whichever
      labelling the tool server uses. */
  lemma SearchJobsStepLabelsByBoard(s: AgentState, env: Env)
    ensures "keywords" in s.inputData ==>
      && SearchJobsStep(s, env).mcpResults
         == Some(Mcp.ExecuteTool("aggregate_jobs", SearchParameters(s.inputData), env.clock, env.boardClock, env.labelling))
      && SearchJobsStep(s, env).mcpResults
         == Some(Mcp.ExecuteTool("aggregate_jobs", SearchParameters(s.inputData), env.clock, env.boardClock, Mcp.ByBoard))
  {
    if "keywords" in s.inputData && env.labelling.Positional? {
      Mcp.DefaultSourcesExecuteAlike("aggregate_jobs", SearchParameters(s.inputData), env.clock, env.boardClock);
    }
  }

  /** One job with the AI's analysis attached (`{**job, "analysis": ...}`). */
  function AnalyzedJob(job: Job, env: Env): (r: Job)
    ensures r.analysis.Some? && r.(analysis := job.analysis) == job
  {
    job.(analysis := Some(AiService.AnalyzeJobDescription(env.ai(JobRequest(job)), env.parse)))
  }

  /** `_analyze_jobs`: every job, in order, gains an `analysis`. */
  function AnalyzeJobsStep(s: AgentState, env: Env): (r: AgentState)
    ensures s.jobData.None? ==> r == Fail(s, "Job analysis failed: 'NoneType' object is not iterable")
    ensures s.jobData.Some? ==>
      && r.jobData.Some? && |r.jobData.value| == |s.jobData.value|
      && (forall i :: 0 <= i < |r.jobData.value| ==>
            r.jobData.value[i].analysis.Some? && r.jobData.value[i].(analysis := s.jobData.value[i].analysis) == s.jobData.value[i])
      && r.analysisResults == Some(JobAnalysisRecord(r.jobData.value, env.clock.iso))
      && r.(jobData := s.jobData, analysisResults := s.analysisResults) == s
  {
    match s.jobData
    case None => Fail(s, "Job analysis failed: 'NoneType' object is not iterable")
    case Some(jobs) =>
      var analyzed := seq(|jobs|, i requires 0 <= i < |jobs| => AnalyzedJob(jobs[i], env));
      s.(jobData := Some(analyzed), analysisResults := Some(JobAnalysisRecord(analyzed, env.clock.iso)))
  }

  /** A score Python can order against integers: an int or a bool. */
  predicate Orderable(score: Json) {
    score.JNum? || score.JBool?
  }

  function ScoreValue(score: Json): int {
    match score
    case JNum(n) => n
    case JBool(b) => if b then 1 else 0
    case _ => 0
  }

  /** The sort key for numeric scores: a match's score as a number. */
  function ScoreKey(m: MatchEntry): int {
    ScoreValue(m.matchScore)
  }

  predicate IntLe(a: int, b: int) {
    a <= b
  }

  /** The sort key for text scores: the score's characters. */
  function TextKey(m: MatchEntry): string {
    if m.matchScore.JStr? then m.matchScore.s else ""
  }

  /** Every score is a number, so any two compare as integers. */
  predicate NumericScores(ms: seq<MatchEntry>) {
    forall i :: 0 <= i < |ms| ==> Orderable(ms[i].matchScore)
  }

  /** Every score is a string, so any two compare character by character. */
  predicate TextScores(ms: seq<MatchEntry>) {
    forall i :: 0 <= i < |ms| ==> ms[i].matchScore.JStr?
  }

  const UnorderableScoresMessage: string := "'<' not supported between instances of match scores"

  /** `matches.sort(key=lambda x: x["match_score"], reverse=True)`. Sorting
      two or more entries compares their scores, which raises unless the
      scores are all numbers or all strings. */
  function SortByScore(ms: seq<MatchEntry>): (r: Outcome<seq<MatchEntry>>)
    ensures r.Raise? <==> |ms| >= 2 && !NumericScores(ms) && !TextScores(ms)
    ensures r.Raise? ==> r.msg == UnorderableScoresMessage
    ensures r.Ok? ==> multiset(r.value) == multiset(ms)
  {
    if NumericScores(ms) then Ok(StableSort.SortDesc(ms, ScoreKey, IntLe))
    else if TextScores(ms) then Ok(StableSort.SortDesc(ms, TextKey, StrLe))
    else if |ms| >= 2 then Raise(UnorderableScoresMessage)
    else Ok(ms)
  }

  /** The match entry for one job: the AI's match analysis against the job's
      own analysis (empty when absent), scored by its `overall_score`. */
  function MatchFor(job: Job, cv: JsonObject, env: Env): (r: MatchEntry)
    ensures r.jobId == job.id
    ensures r.matchScore == Get(r.analysis, "overall_score", JNum(0))
  {
    var analysis := AiService.CalculateMatchScore(env.ai(MatchRequest(cv, job.analysis.GetOr(map[]))), env.parse);
    MatchEntry(job.id, Get(analysis, "overall_score", JNum(0)), analysis)
  }

  /** The jobs matching runs over: `state.get("job_data") or []`. */
  function MatchableJobs(s: AgentState): seq<Job> {
    if s.jobData.Some? then s.jobData.value else []
  }

  /** The CV analysis matching uses: `state.get("cv_data") or` the stand-in. */
  function MatchingCv(s: AgentState): JsonObject {
    if s.cvData.Some? && s.cvData.value != map[] then s.cvData.value else MockProfile
  }

  /** The unsorted match list: one entry per matchable job, in job order. */
  function Matches(s: AgentState, env: Env): (ms: seq<MatchEntry>)
    ensures |ms| == |MatchableJobs(s)|
    ensures forall i :: 0 <= i < |ms| ==> ms[i].jobId == MatchableJobs(s)[i].id
  {
    var jobs := MatchableJobs(s);
    var cv := MatchingCv(s);
    seq(|jobs|, i requires 0 <= i < |jobs| => MatchFor(jobs[i], cv, env))
  }

  /** `_calculate_matches`: one match per job, the list ordered by score;
      only ordering scores that are not numbers can fail. */
  function CalculateMatchesStep(s: AgentState, env: Env): (r: AgentState)
    ensures "cv_id" !in s.inputData ==> r == Fail(s, "Matching calculation failed: " + KeyErrorText("cv_id"))
    ensures "cv_id" in s.inputData && "job_ids" !in s.inputData ==> r == Fail(s, "Matching calculation failed: " + KeyErrorText("job_ids"))
    ensures "cv_id" in s.inputData && "job_ids" in s.inputData ==>
      if SortByScore(Matches(s, env)).Ok? then
        && r.error == s.error
        && r.matchResults.Some?
        && r.matchResults.value.cvId == s.inputData["cv_id"]
        && r.matchResults.value.jobIds == s.inputData["job_ids"]
        && multiset(r.matchResults.value.matches) == multiset(Matches(s, env))
        && r.(matchResults := s.matchResults) == s
      else
        r == Fail(s, "Matching calculation failed: " + UnorderableScoresMessage)
  {
    if "cv_id" !in s.inputData then Fail(s, "Matching calculation failed: " + KeyErrorText("cv_id"))
    else if "job_ids" !in s.inputData then Fail(s, "Matching calculation failed: " + KeyErrorText("job_ids"))
    else
      match SortByScore(Matches(s, env))
      case Raise(m) => Fail(s, "Matching calculation failed: " + m)
      case Ok(sorted) =>
        s.(matchResults := Some(MatchResults(sorted, s.inputData["cv_id"], s.inputData["job_ids"], env.clock.iso)))
  }

  const NoMatchResultsMessage: string := "'NoneType' object has no attribute 'get'"

  /** `_generate_recommendations`: reads `match_results`, which raises while
      it is still `None`. */
  function RecommendationsStep(s: AgentState, env: Env): (r: AgentState)
    ensures s.matchResults.None? ==> r == Fail(s, "Recommendation generation failed: " + NoMatchResultsMessage)
    ensures s.matchResults.Some? ==>
      && r.recommendations.Some?
      && (r.recommendations.value == [] || r.recommendations.value == AiService.FallbackRecommendations)
      && r.(recommendations := s.recommendations) == s
  {
    match s.matchResults
    case None => Fail(s, "Recommendation generation failed: " + NoMatchResultsMessage)
    case Some(mr) =>
      var recs := AiService.GenerateSkillRecommendations(env.ai(RecommendationRequest(MockProfile, mr.matches)), env.parse);
      s.(recommendations := Some(recs))
  }

  /** `_integrate_mcp`: runs the requested tool; the tool service reports
      its own failures, so only a missing input key is an error here. */
  function IntegrateMcpStep(s: AgentState, env: Env): (r: AgentState)
    ensures "tool_name" !in s.inputData ==> r == Fail(s, "MCP integration failed: " + KeyErrorText("tool_name"))
    ensures "tool_name" in s.inputData && "parameters" !in s.inputData
            ==> r == Fail(s, "MCP integration failed: " + KeyErrorText("parameters"))
    ensures "tool_name" in s.inputData && "parameters" in s.inputData ==>
      && r.mcpResults.Some? && r.(mcpResults := s.mcpResults) == s
      && (s.inputData["tool_name"].JStr? && s.inputData["parameters"].JObj? ==>
            r.mcpResults.value.tool == s.inputData["tool_name"].s)
  {
    if "tool_name" !in s.inputData then Fail(s, "MCP integration failed: " + KeyErrorText("tool_name"))
    else if "parameters" !in s.inputData then Fail(s, "MCP integration failed: " + KeyErrorText("parameters"))
    else
      var name, params := s.inputData["tool_name"], s.inputData["parameters"];
      var result :=
        if name.JStr? && params.JObj? then Mcp.ExecuteTool(name.s, params.fields, env.clock, env.boardClock, env.labelling)
        else env.untypedCall(name, params);
      s.(mcpResults := Some(result))
  }

  /** A named tool with a parameter dict is run by the tool service, under
      the run's labelling. */
  lemma IntegrateMcpStepRunsTool(s: AgentState, env: Env)
    ensures "tool_name" in s.inputData && "parameters" in s.inputData
            && s.inputData["tool_name"].JStr? && s.inputData["parameters"].JObj? ==>
            IntegrateMcpStep(s, env).mcpResults
            == Some(Mcp.ExecuteTool(s.inputData["tool_name"].s, s.inputData["parameters"].fields,
                                    env.clock, env.boardClock, env.labelling))
  {
  }

  /** The task-specific part of the formatted output. */
  function Payload(s: AgentState): map<string, Slot> {
    match EntryNode(s.taskType)
    case Some(CvAnalysis) => map["cv_analysis" := CvSlot(s.cvData), "analysis" := AnalysisSlot(s.analysisResults)]
    case Some(JobSearch) => map["jobs" := JobsSlot(s.jobData), "search_results" := ToolSlot(s.mcpResults)]
    case Some(Matching) => map["matches" := MatchesSlot(s.matchResults)]
    case Some(RecommendationGeneration) => map["recommendations" := RecommendationsSlot(s.recommendations)]
    case Some(McpIntegration) => map["mcp_results" := ToolSlot(s.mcpResults)]
    case _ => map[]
  }

  /** The payload keys each task type's output carries. */
  function PayloadKeys(taskType: string): set<string> {
    if taskType == "cv_analysis" then {"cv_analysis", "analysis"}
    else if taskType == "job_search" then {"jobs", "search_results"}
    else if taskType == "matching" then {"matches"}
    else if taskType == "recommendations" then {"recommendations"}
    else if taskType == "mcp_search" then {"mcp_results"}
    else {}
  }

  /** `_format_output` */
  function FormatOutput(s: AgentState, env: Env): (r: AgentState)
    ensures r.finalOutput.Some? && r.finalOutput.value.Formatted?
    ensures var o := r.finalOutput.value;
      && o.taskType == s.taskType && o.userId == s.userId
      && o.executionTime == s.executionTime
      && (o.status == "completed" <==> !HasError(s))
      && (o.status == "failed" <==> HasError(s))
      && (o.error.Some? <==> HasError(s))
      && (HasError(s) ==> o.error == s.error)
      && o.payload.Keys == PayloadKeys(s.taskType)
    ensures r.finalOutput.value.timestamp == env.clock.iso
    ensures r.(finalOutput := s.finalOutput) == s
  {
    var status := if HasError(s) then "failed" else "completed";
    var error := if HasError(s) then s.error else None;
    s.(finalOutput := Some(Formatted(s.taskType, s.userId, env.clock.iso, s.executionTime, status, Payload(s), error)))
  }

  /** Each payload key of the envelope carries the state's value for it:
      the CV and its analysis, the jobs and the search result, the matches,
      the recommendations, or the tool result. */
  lemma FormatOutputCarriesState(s: AgentState, env: Env)
    ensures var p := FormatOutput(s, env).finalOutput.value.payload;
      && (s.taskType == "cv_analysis" ==> p["cv_analysis"] == CvSlot(s.cvData) && p["analysis"] == AnalysisSlot(s.analysisResults))
      && (s.taskType == "job_search" ==> p["jobs"] == JobsSlot(s.jobData) && p["search_results"] == ToolSlot(s.mcpResults))
      && (s.taskType == "matching" ==> p["matches"] == MatchesSlot(s.matchResults))
      && (s.taskType == "recommendations" ==> p["recommendations"] == RecommendationsSlot(s.recommendations))
      && (s.taskType == "mcp_search" ==> p["mcp_results"] == ToolSlot(s.mcpResults))
  {
  }

  /** `_handle_error`: `state.get("error", "Unknown error")` finds the key,
      so the reported error is whatever the state holds, `None` included. */
  function HandleError(s: AgentState, env: Env): (r: AgentState)
    ensures r.finalOutput == Some(ErrorReport(s.taskType, s.userId, env.clock.iso, s.executionTime, s.error))
    ensures r.(finalOutput := s.finalOutput) == s
  {
    s.(finalOutput := Some(ErrorReport(s.taskType, s.userId, env.clock.iso, s.executionTime, s.error)))
  }

  // ---------------------------------------------------------------------
  // Execution

  /** The step a node runs. */
  function Execute(n: Node, s: AgentState, env: Env): AgentState {
    match n
    case InputValidation => ValidateInput(s)
    case CvAnalysis => AnalyzeCvStep(s, env)
    case JobSearch => SearchJobsStep(s, env)
    case JobAnalysis => AnalyzeJobsStep(s, env)
    case Matching => CalculateMatchesStep(s, env)
    case RecommendationGeneration => RecommendationsStep(s, env)
    case McpIntegration => IntegrateMcpStep(s, env)
    case OutputFormatting => FormatOutput(s, env)
    case ErrorHandling => HandleError(s, env)
    case _ => s
  }



  /** Where the graph goes after node `n`: through the router and its path
      map after validation (an unknown label raises `KeyError`), along the
      unconditional edge elsewhere. */
  function Next(n: Node, s: AgentState, routing: Routing): (r: Outcome<Node>)
    requires n != End
    ensures r.Ok? ==> r.value in Succ(n) && Rank(r.value) > Rank(n)
    ensures r.Raise? <==> n == InputValidation && routing.AsWritten? && RouteAsWritten(s) !in PathMap
  {
    match n
    case InputValidation =>
      var key := if routing.AsWritten? then RouteAsWritten(s) else Route(s);
      if key in PathMap then
        assert PathMap[key] in PathMap.Values;
        Ok(PathMap[key])
      else Raise(KeyErrorText(key))
    case Start => assert (Start, InputValidation) in StaticEdges; Ok(InputValidation)
    case CvAnalysis => assert (CvAnalysis, OutputFormatting) in StaticEdges; Ok(OutputFormatting)
    case JobSearch => assert (JobSearch, JobAnalysis) in StaticEdges; Ok(JobAnalysis)
    case JobAnalysis => assert (JobAnalysis, OutputFormatting) in StaticEdges; Ok(OutputFormatting)
    case Matching => assert (Matching, RecommendationGeneration) in StaticEdges; Ok(RecommendationGeneration)
    case RecommendationGeneration =>
      assert (RecommendationGeneration, OutputFormatting) in StaticEdges; Ok(OutputFormatting)
    case McpIntegration => assert (McpIntegration, OutputFormatting) in StaticEdges; Ok(OutputFormatting)
    case OutputFormatting => assert (OutputFormatting, End) in StaticEdges; Ok(End)
    case ErrorHandling => assert (ErrorHandling, End) in StaticEdges; Ok(End)
  }

  /** A run from some node: the nodes visited and the final state, or the
      exception that escaped. */
  datatype Run = Run(visited: seq<Node>, result: Outcome<AgentState>)

  /** `IsPath(p)`: consecutive nodes of `p` are joined by edges. */
  ghost predicate IsPath(p: seq<Node>) {
    |p| > 0 && forall i :: 0 <= i < |p| - 1 ==> p[i + 1] in Succ(p[i])
  }

  function RunFrom(n: Node, s: AgentState, env: Env, routing: Routing): (r: Run)
    decreases 5 - Rank(n)
  {
    if n == End then Run([End], Ok(s))
    else
      var s' := Execute(n, s, env);
      match Next(n, s', routing)
      case Raise(m) => Run([n], Raise(m))
      case Ok(m) =>
        var rest := RunFrom(m, s', env, routing);
        Run([n] + rest.visited, rest.result)
  }

  /** A run follows a path through the graph from its first node and, when
      it returns, stops at the end. */
  lemma {:induction false} RunFollowsEdges(n: Node, s: AgentState, env: Env, routing: Routing)
    ensures var r := RunFrom(n, s, env, routing);
            && IsPath(r.visited) && r.visited[0] == n
            && (r.result.Ok? ==> r.visited[|r.visited| - 1] == End)
    decreases 5 - Rank(n)
  {
    if n != End {
      var s' := Execute(n, s, env);
      var next := Next(n, s', routing);
      if next.Ok? {
        var m := next.value;
        RunThrough(n, s, env, routing, m);
        RunFollowsEdges(m, s', env, routing);
        PathCons(n, RunFrom(m, s', env, routing).visited);
      } else {
        RunStops(n, s, env, routing);
      }
    }
  }

  /** A step whose transition raises ends the run at that node. */
  lemma RunStops(n: Node, s: AgentState, env: Env, routing: Routing)
    requires n != End && Next(n, Execute(n, s, env), routing).Raise?
    ensures RunFrom(n, s, env, routing) == Run([n], Raise(Next(n, Execute(n, s, env), routing).msg))
  {
  }

  /** A node followed by a path that starts at one of its successors is a
      path. */
  lemma PathCons(n: Node, p: seq<Node>)
    requires IsPath(p) && p[0] in Succ(n)
    ensures IsPath([n] + p) && ([n] + p)[0] == n && ([n] + p)[|p|] == p[|p| - 1]
  {
    var q := [n] + p;
    forall i | 0 <= i < |q| - 1
      ensures q[i + 1] in Succ(q[i])
    {
      if i > 0 {
        assert q[i] == p[i - 1] && q[i + 1] == p[i];
      }
    }
  }

  /** What `run_workflow` returns: the final state with `execution_time`
      set, or the failure record built when an exception escapes the graph
      (it has no `status`). */
  datatype WorkflowResult =
    | Completed(state: AgentState)
    | Crashed(error: string, executionTime: real, taskType: string, userId: string)

  function RunWorkflow(userId: string, taskType: string, input: JsonObject, env: Env, routing: Routing): (r: WorkflowResult)
    ensures r.Completed? ==> r.state.executionTime == Some(env.elapsed)
    ensures r.Crashed? ==> r.taskType == taskType && r.userId == userId && r.executionTime == env.elapsed
  {
    match RunFrom(Start, InitialState(userId, taskType, input), env, routing).result
    case Ok(s) => Completed(s.(executionTime := Some(env.elapsed)))
    case Raise(m) => Crashed(m, env.elapsed, taskType, userId)
  }

  // ---------------------------------------------------------------------
  // The shape of the graph

  /** The successors of each node, read off the edge table and path map. */
  function SuccTable(n: Node): set<Node> {
    match n
    case Start => {InputValidation}
    case InputValidation => {CvAnalysis, JobSearch, Matching, RecommendationGeneration, McpIntegration, ErrorHandling}
    case CvAnalysis => {OutputFormatting}
    case JobSearch => {JobAnalysis}
    case JobAnalysis => {OutputFormatting}
    case Matching => {RecommendationGeneration}
    case RecommendationGeneration => {OutputFormatting}
    case McpIntegration => {OutputFormatting}
    case OutputFormatting => {End}
    case ErrorHandling => {End}
    case End => {}
  }

  lemma SuccIsTable(n: Node)
    ensures Succ(n) == SuccTable(n)
  {
    if n == InputValidation {
      assert PathMap["cv_analysis"] == CvAnalysis && PathMap["job_search"] == JobSearch;
      assert PathMap["matching"] == Matching && PathMap["recommendations"] == RecommendationGeneration;
      assert PathMap["mcp_search"] == McpIntegration && PathMap["error"] == ErrorHandling;
    } else {
      forall m | m in SuccTable(n)
        ensures m in Succ(n)
      {
        assert (n, m) in StaticEdges;
      }
    }
  }

  /** Only the router leads to error handling. */
  lemma ErrorHandlingOnlyAfterValidation(n: Node)
    ensures ErrorHandling in Succ(n) <==> n == InputValidation
  {
    SuccIsTable(n);
  }

  /** Every path from `n` to the end, built by following the successor
      table; the graph is acyclic, so there are finitely many. */
  function RoutesFrom(n: Node): set<seq<Node>>
    decreases 5 - Rank(n)
  {
    if n == End then {[End]}
    else set m, q | m in SuccTable(n) && q in RoutesFrom(m) :: [n] + q
  }

  /** Each path that reaches the end is one of the listed routes. */
  lemma {:induction false} PathToEndIsRoute(p: seq<Node>)
    requires IsPath(p) && p[|p| - 1] == End
    ensures p in RoutesFrom(p[0])
    decreases |p|
  {
    SuccIsTable(p[0]);
    if |p| == 1 {
      assert p == [End];
    } else {
      var q := p[1..];
      assert IsPath(q) by {
        forall i | 0 <= i < |q| - 1
          ensures q[i + 1] in Succ(q[i])
        {
          assert q[i] == p[i + 1] && q[i + 1] == p[i + 2];
        }
      }
      PathToEndIsRoute(q);
      assert p == [p[0]] + q;
      assert q[0] in SuccTable(p[0]);
    }
  }

  /** The number of terminal nodes (output formatting or error handling) on
      a path. */
  function Terminals(p: seq<Node>): nat {
    if |p| == 0 then 0
    else (if p[0] == OutputFormatting || p[0] == ErrorHandling then 1 else 0) + Terminals(p[1..])
  }

  /** A route from a node other than the end is that node followed by a
      route from one of its successors. */
  lemma RouteStep(n: Node, q: seq<Node>) returns (m: Node, rest: seq<Node>)
    requires n != End && q in RoutesFrom(n)
    ensures m in SuccTable(n) && rest in RoutesFrom(m) && q == [n] + rest
    ensures Rank(m) > Rank(n)
  {
    m, rest :| m in SuccTable(n) && rest in RoutesFrom(m) && q == [n] + rest;
    TableRaisesRank(n, m);
  }

  /** Every edge of the table leads deeper. */
  lemma TableRaisesRank(n: Node, m: Node)
    requires m in SuccTable(n)
    ensures Rank(m) > Rank(n)
  {
  }

  /** The only route from the end is the end itself. */
  lemma RouteFromEnd(q: seq<Node>)
    requires q in RoutesFrom(End)
    ensures q == [End]
  {
  }

  lemma {:induction false} RoutesHaveOneTerminal(n: Node, q: seq<Node>)
    requires q in RoutesFrom(n)
    ensures Terminals(q) == if n == End then 0 else 1
    ensures n != End ==> |q| >= 2 && (q[|q| - 2] == OutputFormatting || q[|q| - 2] == ErrorHandling)
    decreases 5 - Rank(n)
  {
    if n == End {
      RouteFromEnd(q);
      assert Terminals(q) == Terminals([]);
    } else {
      var m, rest := RouteStep(n, q);
      RoutesHaveOneTerminal(m, rest);
      assert q[1..] == rest;
      var here := if n == OutputFormatting || n == ErrorHandling then 1 else 0;
      assert Terminals(q) == here + Terminals(rest);
      if here == 1 {
        assert m == End;
        RouteFromEnd(rest);
      } else {
        assert m != End;
        assert q[|q| - 2] == rest[|rest| - 2];
      }
    }
  }

  /** Every run from the start that reaches the end passes through exactly
      one of output formatting and error handling, right before the end. */
  lemma CompleteRunsHaveOneTerminal(p: seq<Node>)
    requires IsPath(p) && p[0] == Start && p[|p| - 1] == End
    ensures Terminals(p) == 1
    ensures |p| >= 2 && (p[|p| - 2] == OutputFormatting || p[|p| - 2] == ErrorHandling)
  {
    PathToEndIsRoute(p);
    RoutesHaveOneTerminal(Start, p);
  }

  // ---------------------------------------------------------------------
  // Properties of the steps

  /** The validation table, first half: a task type's message is recorded
      when one of the keys it requires is missing. */
  lemma ValidateInputRejectsMissing(s: AgentState, k: string)
    requires k in RequiredKeys(s.taskType) && k !in s.inputData
    ensures ValidateInput(s) == Fail(s, MissingInputMessage(s.taskType))
  {
    var t := s.taskType;
    if t == "matching" {
      assert k == "cv_id" || k == "job_ids";
    } else if t == "mcp_search" {
      assert k == "tool_name" || k == "parameters";
    }
  }

  /** The validation table, second half: with every required key present
      the state passes unchanged. */
  lemma ValidateInputAcceptsComplete(s: AgentState)
    requires forall k :: k in RequiredKeys(s.taskType) ==> k in s.inputData
    ensures ValidateInput(s) == s
  {
    var t := s.taskType;
    if t == "cv_analysis" {
      assert "cv_id" in RequiredKeys(t);
    } else if t == "job_search" {
      assert "keywords" in RequiredKeys(t);
    } else if t == "matching" {
      assert "cv_id" in RequiredKeys(t) && "job_ids" in RequiredKeys(t);
    } else if t == "recommendations" {
      assert "user_id" in RequiredKeys(t);
    } else if t == "mcp_search" {
      assert "tool_name" in RequiredKeys(t) && "parameters" in RequiredKeys(t);
    }
  }

  /** The router as written names two entry nodes by labels the path map
      does not have. */
  lemma RouterLabelsOutsidePathMap(s: AgentState)
    ensures RouteAsWritten(s) !in PathMap
            <==> !HasError(s) && (s.taskType == "recommendations" || s.taskType == "mcp_search")
  {
  }

  /** Python compares integers by a total order. */
  lemma IntLeTotalOrder()
    ensures StableSort.TotalOrder(IntLe)
  {
  }

  /** Python compares strings by a total order. */
  lemma TextLeTotalOrder()
    ensures StableSort.TotalOrder(StrLe)
  {
    forall a: string
      ensures StrLe(a, a)
    {
      StrLeReflexive(a);
    }
    forall a: string, b: string | StrLe(a, b) && StrLe(b, a)
      ensures a == b
    {
      StrLeAntisymmetric(a, b);
    }
    forall a: string, b: string, c: string | StrLe(a, b) && StrLe(b, c)
      ensures StrLe(a, c)
    {
      StrLeTransitive(a, b, c);
    }
    forall a: string, b: string
      ensures StrLe(a, b) || StrLe(b, a)
    {
      StrLeTotal(a, b);
    }
  }

  /** A successful sort puts numeric scores in non-increasing numeric
      order and text scores in non-increasing string order, keeping matches
      with equal scores in their job order; a single entry with any other
      score is left as it is. */
  lemma SortByScoreOrdered(ms: seq<MatchEntry>)
    requires SortByScore(ms).Ok?
    ensures NumericScores(ms) ==>
      && StableSort.SortedDesc(SortByScore(ms).value, ScoreKey, IntLe)
      && forall k :: StableSort.WithKey(SortByScore(ms).value, ScoreKey, k) == StableSort.WithKey(ms, ScoreKey, k)
    ensures TextScores(ms) ==>
      && StableSort.SortedDesc(SortByScore(ms).value, TextKey, StrLe)
      && forall k :: StableSort.WithKey(SortByScore(ms).value, TextKey, k) == StableSort.WithKey(ms, TextKey, k)
    ensures !NumericScores(ms) && !TextScores(ms) ==> |ms| < 2 && SortByScore(ms).value == ms
  {
    if NumericScores(ms) {
      NumericScoresOrdered(ms);
    }
    if TextScores(ms) {
      TextScoresOrdered(ms);
    }
  }

  /** Sorted numeric scores are non-increasing, and matches with equal
      scores keep their job order. */
  lemma NumericScoresOrdered(ms: seq<MatchEntry>)
    requires NumericScores(ms)
    ensures SortByScore(ms).Ok?
    ensures StableSort.SortedDesc(SortByScore(ms).value, ScoreKey, IntLe)
    ensures forall k :: StableSort.WithKey(SortByScore(ms).value, ScoreKey, k) == StableSort.WithKey(ms, ScoreKey, k)
  {
    IntLeTotalOrder();
    StableSort.SortDescSorted(ms, ScoreKey, IntLe);
    forall k
      ensures StableSort.WithKey(SortByScore(ms).value, ScoreKey, k) == StableSort.WithKey(ms, ScoreKey, k)
    {
      StableSort.SortDescStable(ms, ScoreKey, IntLe, k);
    }
  }

  /** Sorted text scores are in non-increasing string order, and matches
      with equal scores keep their job order. */
  lemma TextScoresOrdered(ms: seq<MatchEntry>)
    requires TextScores(ms)
    ensures SortByScore(ms).Ok?
    ensures StableSort.SortedDesc(SortByScore(ms).value, TextKey, StrLe)
    ensures forall k :: StableSort.WithKey(SortByScore(ms).value, TextKey, k) == StableSort.WithKey(ms, TextKey, k)
  {
    TextLeTotalOrder();
    if |ms| > 0 {
      assert ms[0].matchScore.JStr? && !Orderable(ms[0].matchScore);
    }
    StableSort.SortDescSorted(ms, TextKey, StrLe);
    forall k
      ensures StableSort.WithKey(SortByScore(ms).value, TextKey, k) == StableSort.WithKey(ms, TextKey, k)
    {
      StableSort.SortDescStable(ms, TextKey, StrLe, k);
    }
  }

  // ---------------------------------------------------------------------
  // Properties of whole runs

  /** One step of a run: node `n` runs, and the run carries on from the
      node `Next` chose. */
  lemma RunThrough(n: Node, s: AgentState, env: Env, routing: Routing, m: Node)
    requires n != End && Next(n, Execute(n, s, env), routing) == Ok(m)
    ensures var rest := RunFrom(m, Execute(n, s, env), env, routing);
            RunFrom(n, s, env, routing) == Run([n] + rest.visited, rest.result)
  {
  }

  /** A terminal node records the final output and ends the run. */
  lemma RunFromTerminal(n: Node, s: AgentState, env: Env, routing: Routing)
    requires n == OutputFormatting || n == ErrorHandling
    ensures RunFrom(n, s, env, routing) == Run([n, End], Ok(Execute(n, s, env)))
  {
    if n == OutputFormatting {
      RunFromFormatting(s, env, routing);
    } else {
      RunFromErrorHandling(s, env, routing);
    }
  }

  /** Output formatting records the envelope and ends the run. */
  lemma RunFromFormatting(s: AgentState, env: Env, routing: Routing)
    ensures RunFrom(OutputFormatting, s, env, routing) == Run([OutputFormatting, End], Ok(FormatOutput(s, env)))
  {
    assert Next(OutputFormatting, FormatOutput(s, env), routing) == Ok(End);
    RunThrough(OutputFormatting, s, env, routing, End);
  }

  /** Error handling records the failure envelope and ends the run. */
  lemma RunFromErrorHandling(s: AgentState, env: Env, routing: Routing)
    ensures RunFrom(ErrorHandling, s, env, routing) == Run([ErrorHandling, End], Ok(HandleError(s, env)))
  {
    assert Next(ErrorHandling, HandleError(s, env), routing) == Ok(End);
    RunThrough(ErrorHandling, s, env, routing, End);
  }

  /** Tool integration runs the tool step. */
  lemma ExecuteMcpIntegration(s: AgentState, env: Env)
    ensures Execute(McpIntegration, s, env) == IntegrateMcpStep(s, env)
  {
  }

  /** Recommendation generation runs the recommendations step. */
  lemma ExecuteRecommendationGeneration(s: AgentState, env: Env)
    ensures Execute(RecommendationGeneration, s, env) == RecommendationsStep(s, env)
  {
  }

  /** A node whose only edge leads to output formatting: the run formats
      the state that node leaves. */
  lemma FormatAfter(n: Node, s: AgentState, env: Env, routing: Routing)
    requires n == CvAnalysis || n == JobAnalysis || n == RecommendationGeneration || n == McpIntegration
    ensures RunFrom(n, s, env, routing).result == Ok(FormatOutput(Execute(n, s, env), env))
  {
    var s2 := Execute(n, s, env);
    assert Next(n, s2, routing) == Ok(OutputFormatting);
    RunThrough(n, s, env, routing, OutputFormatting);
    RunFromFormatting(s2, env, routing);
  }

  /** The workflow's result once the run from validation is known. */
  lemma WorkflowFromValidation(userId: string, taskType: string, input: JsonObject, env: Env, routing: Routing)
    ensures var run := RunFrom(InputValidation, InitialState(userId, taskType, input), env, routing);
            RunWorkflow(userId, taskType, input, env, routing)
            == match run.result
               case Ok(s) => Completed(s.(executionTime := Some(env.elapsed)))
               case Raise(m) => Crashed(m, env.elapsed, taskType, userId)
  {
    var s := InitialState(userId, taskType, input);
    RunThrough(Start, s, env, routing, InputValidation);
  }

  /** A request holding every key its task type needs passes validation
      unchanged; the workflow's result is then that of the run from the
      node the router picks. */
  lemma AcceptedRoutesTo(userId: string, taskType: string, input: JsonObject, env: Env, routing: Routing, m: Node)
    requires forall k :: k in RequiredKeys(taskType) ==> k in input
    requires Next(InputValidation, InitialState(userId, taskType, input), routing) == Ok(m)
    ensures var run := RunFrom(m, InitialState(userId, taskType, input), env, routing);
            RunWorkflow(userId, taskType, input, env, routing)
            == match run.result
               case Ok(s) => Completed(s.(executionTime := Some(env.elapsed)))
               case Raise(e) => Crashed(e, env.elapsed, taskType, userId)
  {
    var s := InitialState(userId, taskType, input);
    ValidateInputAcceptsComplete(s);
    assert RunFrom(InputValidation, s, env, routing).result == RunFrom(m, s, env, routing).result by {
      RunThrough(InputValidation, s, env, routing, m);
    }
    WorkflowFromValidation(userId, taskType, input, env, routing);
  }

  /** With the router returning path-map keys, no exception escapes the
      graph. */
  lemma {:induction false} IntendedRunsReturn(n: Node, s: AgentState, env: Env)
    ensures RunFrom(n, s, env, Intended).result.Ok?
    decreases 5 - Rank(n)
  {
    if n != End {
      var s' := Execute(n, s, env);
      var next := Next(n, s', Intended);
      IntendedRunsReturn(next.value, s', env);
    }
  }

  lemma IntendedWorkflowCompletes(userId: string, taskType: string, input: JsonObject, env: Env)
    ensures RunWorkflow(userId, taskType, input, env, Intended).Completed?
  {
    IntendedRunsReturn(Start, InitialState(userId, taskType, input), env);
  }

  /** With the router as written, a valid recommendations or tool request
      escapes the graph as a `KeyError` on the router's label. */
  lemma AsWrittenRouterCrashes(userId: string, taskType: string, input: JsonObject, env: Env)
    requires taskType == "recommendations" || taskType == "mcp_search"
    requires forall k :: k in RequiredKeys(taskType) ==> k in input
    ensures RunWorkflow(userId, taskType, input, env, AsWritten)
         == Crashed(KeyErrorText(if taskType == "recommendations" then "recommendation_generation" else "mcp_integration"),
                    env.elapsed, taskType, userId)
  {
    var s := InitialState(userId, taskType, input);
    ValidateInputAcceptsComplete(s);
    var key := if taskType == "recommendations" then "recommendation_generation" else "mcp_integration";
    assert RouteAsWritten(s) == key;
    assert key !in PathMap;
    UnmappedLabelRaises(s, env);
    WorkflowFromValidation(userId, taskType, input, env, AsWritten);
  }

  /** An unmapped label from the as-written router escapes the graph as a
      `KeyError`. */
  lemma UnmappedLabelRaises(s: AgentState, env: Env)
    requires ValidateInput(s) == s && RouteAsWritten(s) !in PathMap
    ensures RunFrom(InputValidation, s, env, AsWritten).result == Raise(KeyErrorText(RouteAsWritten(s)))
  {
    assert Next(InputValidation, s, AsWritten) == Raise(KeyErrorText(RouteAsWritten(s)));
  }


  /** A request missing a key its task type requires ends in error handling,
      which reports the task's validation message. */
  lemma MissingInputIsReported(userId: string, taskType: string, input: JsonObject, env: Env, routing: Routing, k: string)
    requires k in RequiredKeys(taskType) && k !in input
    ensures RunWorkflow(userId, taskType, input, env, routing)
         == Completed(Fail(InitialState(userId, taskType, input), MissingInputMessage(taskType)).(
              finalOutput := Some(ErrorReport(taskType, userId, env.clock.iso, None, Some(MissingInputMessage(taskType)))),
              executionTime := Some(env.elapsed)))
  {
    var s := InitialState(userId, taskType, input);
    ValidateInputRejectsMissing(s, k);
    assert Next(InputValidation, ValidateInput(s), routing) == Ok(ErrorHandling);
    ValidationToErrorHandling(s, env, routing);
    WorkflowFromValidation(userId, taskType, input, env, routing);
  }

  /** A state the router sends to error handling gets the failure
      envelope. */
  lemma ValidationToErrorHandling(s: AgentState, env: Env, routing: Routing)
    requires Next(InputValidation, ValidateInput(s), routing) == Ok(ErrorHandling)
    ensures RunFrom(InputValidation, s, env, routing).result == Ok(HandleError(ValidateInput(s), env))
  {
    RunThrough(InputValidation, s, env, routing, ErrorHandling);
    RunFromErrorHandling(ValidateInput(s), env, routing);
  }


  /** An unknown task type is routed to error handling with no error to
      report: the failure envelope carries `None`. */
  lemma UnknownTaskReportsNone(userId: string, taskType: string, input: JsonObject, env: Env, routing: Routing)
    requires EntryNode(taskType).None?
    ensures RunWorkflow(userId, taskType, input, env, routing).Completed?
    ensures RunWorkflow(userId, taskType, input, env, routing).state.finalOutput
         == Some(ErrorReport(taskType, userId, env.clock.iso, None, None))
  {
    var s := InitialState(userId, taskType, input);
    ValidateInputAcceptsComplete(s);
    assert Next(InputValidation, s, routing) == Ok(ErrorHandling);
    ValidationToErrorHandling(s, env, routing);
    WorkflowFromValidation(userId, taskType, input, env, routing);
  }


  /** With the corrected router, a recommendations request runs
      validation, recommendation generation and output formatting. */
  lemma RecommendationsRoute(userId: string, input: JsonObject, env: Env)
    requires "user_id" in input
    ensures var s := InitialState(userId, "recommendations", input);
            RunWorkflow(userId, "recommendations", input, env, Intended)
            == Completed(FormatOutput(RecommendationsStep(s, env), env).(executionTime := Some(env.elapsed)))
  {
    var s := InitialState(userId, "recommendations", input);
    assert Next(InputValidation, s, Intended) == Ok(RecommendationGeneration);
    AcceptedRoutesTo(userId, "recommendations", input, env, Intended, RecommendationGeneration);
    FormatAfter(RecommendationGeneration, s, env, Intended);
    ExecuteRecommendationGeneration(s, env);
  }

  /** A recommendations request routed straight to recommendation
      generation finds no match results and ends as a failed output. */
  lemma DirectRecommendationsFail(userId: string, input: JsonObject, env: Env)
    requires "user_id" in input
    ensures var run := RunWorkflow(userId, "recommendations", input, env, Intended);
      && run.Completed?
      && run.state.recommendations.None?
      && var o := run.state.finalOutput;
      && o.Some? && o.value.Formatted?
      && o.value.status == "failed"
      && o.value.error == Some("Recommendation generation failed: " + NoMatchResultsMessage)
      && o.value.payload == map["recommendations" := RecommendationsSlot(None)]
  {
    RecommendationsRoute(userId, input, env);
    var s := InitialState(userId, "recommendations", input);
    var msg := "Recommendation generation failed: " + NoMatchResultsMessage;
    assert RecommendationsStep(s, env) == Fail(s, msg);
    FailedRecommendationsOutput(Fail(s, msg), msg, env);
  }


  /** Formatting a recommendations state that failed with `msg` and holds
      no recommendations. */
  lemma FailedRecommendationsOutput(s: AgentState, msg: string, env: Env)
    requires s.taskType == "recommendations" && s.error == Some(msg) && msg != "" && s.recommendations.None?
    ensures var f := FormatOutput(s, env);
      && f.recommendations.None?
      && var o := f.finalOutput;
      && o.Some? && o.value.Formatted?
      && o.value.status == "failed"
      && o.value.error == Some(msg)
      && o.value.payload == map["recommendations" := RecommendationsSlot(None)]
  {
    assert Payload(s) == map["recommendations" := RecommendationsSlot(None)];
  }

  /** A complete CV analysis request runs validation, CV analysis and
      output formatting. */
  lemma CvAnalysisRoute(userId: string, input: JsonObject, env: Env, routing: Routing)
    requires "cv_id" in input
    ensures var s := InitialState(userId, "cv_analysis", input);
            RunWorkflow(userId, "cv_analysis", input, env, routing)
            == Completed(FormatOutput(AnalyzeCvStep(s, env), env).(executionTime := Some(env.elapsed)))
  {
    var s := InitialState(userId, "cv_analysis", input);
    assert Next(InputValidation, s, routing) == Ok(CvAnalysis);
    AcceptedRoutesTo(userId, "cv_analysis", input, env, routing, CvAnalysis);
    FormatAfter(CvAnalysis, s, env, routing);
    assert Execute(CvAnalysis, s, env) == AnalyzeCvStep(s, env);
  }

  /** When the chat model fails, CV analysis still completes, with the
      fallback analysis as its result. */
  lemma CvAnalysisFallsBack(userId: string, input: JsonObject, env: Env, routing: Routing)
    requires "cv_id" in input
    requires env.ai(CvRequest(MockCvText)).Raise?
    ensures RunWorkflow(userId, "cv_analysis", input, env, routing).Completed?
    ensures var o := RunWorkflow(userId, "cv_analysis", input, env, routing).state.finalOutput;
            && o.Some? && o.value.Formatted?
            && o.value.status == "completed"
            && "cv_analysis" in o.value.payload
            && o.value.payload["cv_analysis"] == CvSlot(Some(AiService.FallbackCvAnalysis))
  {
    CvAnalysisRoute(userId, input, env, routing);
    var s2 := AnalyzeCvStep(InitialState(userId, "cv_analysis", input), env);
    assert s2.cvData == Some(AiService.FallbackCvAnalysis) && s2.error == None && s2.taskType == "cv_analysis";
    FormatOutputCarriesState(s2, env);
  }

  /** From matching the run always continues through recommendation
      generation to output formatting. */
  lemma MatchingTail(s: AgentState, env: Env, routing: Routing)
    ensures RunFrom(Matching, s, env, routing).result
         == Ok(FormatOutput(RecommendationsStep(CalculateMatchesStep(s, env), env), env))
  {
    MatchingThenRecommendations(s, env, routing);
    RecommendationsTail(CalculateMatchesStep(s, env), env, routing);
  }

  /** Matching hands its state to recommendation generation. */
  lemma MatchingThenRecommendations(s: AgentState, env: Env, routing: Routing)
    ensures RunFrom(Matching, s, env, routing).result
         == RunFrom(RecommendationGeneration, CalculateMatchesStep(s, env), env, routing).result
  {
    assert Next(Matching, CalculateMatchesStep(s, env), routing) == Ok(RecommendationGeneration);
    RunThrough(Matching, s, env, routing, RecommendationGeneration);
  }

  /** From recommendation generation the run continues to output
      formatting. */
  lemma RecommendationsTail(s: AgentState, env: Env, routing: Routing)
    ensures RunFrom(RecommendationGeneration, s, env, routing).result == Ok(FormatOutput(RecommendationsStep(s, env), env))
  {
    FormatAfter(RecommendationGeneration, s, env, routing);
    ExecuteRecommendationGeneration(s, env);
  }

  /** A complete matching request runs validation, matching,
      recommendation generation and output formatting. */
  lemma MatchingRoute(userId: string, input: JsonObject, env: Env, routing: Routing)
    requires "cv_id" in input && "job_ids" in input
    ensures var s := InitialState(userId, "matching", input);
            RunWorkflow(userId, "matching", input, env, routing)
            == Completed(FormatOutput(RecommendationsStep(CalculateMatchesStep(s, env), env), env).(executionTime := Some(env.elapsed)))
  {
    var s := InitialState(userId, "matching", input);
    assert Next(InputValidation, s, routing) == Ok(Matching);
    AcceptedRoutesTo(userId, "matching", input, env, routing, Matching);
    MatchingTail(s, env, routing);
  }

  /** Matching runs without a job search, so it matches no jobs; its
      recommendations follow and the output completes. */
  lemma MatchingRouteMatchesNothing(userId: string, input: JsonObject, env: Env, routing: Routing)
    requires "cv_id" in input && "job_ids" in input
    ensures RunWorkflow(userId, "matching", input, env, routing).Completed?
    ensures var st := RunWorkflow(userId, "matching", input, env, routing).state;
            && st.matchResults.Some? && st.matchResults.value.matches == []
            && st.recommendations.Some?
            && st.finalOutput.Some? && st.finalOutput.value.Status() == "completed"
  {
    MatchingRoute(userId, input, env, routing);
    var s := InitialState(userId, "matching", input);
    assert Matches(s, env) == [];
    assert SortByScore([]) == Ok([]);
    var s2 := CalculateMatchesStep(s, env);
    assert s2.matchResults.Some? && s2.matchResults.value.matches == [] && s2.error == None;
  }

  /** From job analysis the run continues to output formatting. */
  lemma JobAnalysisTail(s: AgentState, env: Env, routing: Routing)
    ensures RunFrom(JobAnalysis, s, env, routing).result == Ok(FormatOutput(AnalyzeJobsStep(s, env), env))
  {
    FormatAfter(JobAnalysis, s, env, routing);
    assert Execute(JobAnalysis, s, env) == AnalyzeJobsStep(s, env);
  }

  /** From the job search the run continues through job analysis to
      output formatting. */
  lemma JobSearchTail(s: AgentState, env: Env, routing: Routing)
    ensures RunFrom(JobSearch, s, env, routing).result == Ok(FormatOutput(AnalyzeJobsStep(SearchJobsStep(s, env), env), env))
  {
    var s2 := SearchJobsStep(s, env);
    assert Execute(JobSearch, s, env) == s2;
    assert Next(JobSearch, s2, routing) == Ok(JobAnalysis);
    RunThrough(JobSearch, s, env, routing, JobAnalysis);
    JobAnalysisTail(s2, env, routing);
  }

  /** A complete job-search request runs validation, the search, job
      analysis and output formatting. */
  lemma JobSearchRoute(userId: string, input: JsonObject, env: Env, routing: Routing)
    requires "keywords" in input
    ensures var s := InitialState(userId, "job_search", input);
            RunWorkflow(userId, "job_search", input, env, routing)
            == Completed(FormatOutput(AnalyzeJobsStep(SearchJobsStep(s, env), env), env).(executionTime := Some(env.elapsed)))
  {
    var s := InitialState(userId, "job_search", input);
    assert Next(InputValidation, s, routing) == Ok(JobSearch);
    AcceptedRoutesTo(userId, "job_search", input, env, routing, JobSearch);
    JobSearchTail(s, env, routing);
  }

  /** A job search completes with every job the tool returned, in the
      tool's order, each carrying an analysis. */
  lemma JobSearchAnalyzesEveryJob(userId: string, input: JsonObject, env: Env, routing: Routing)
    requires "keywords" in input
    ensures RunWorkflow(userId, "job_search", input, env, routing).Completed?
    ensures var st := RunWorkflow(userId, "job_search", input, env, routing).state;
            && st.finalOutput.Some? && st.finalOutput.value.Status() == "completed"
            && st.mcpResults.Some? && st.jobData.Some?
            && |st.jobData.value| == |ResultJobs(st.mcpResults.value)|
            && forall i :: 0 <= i < |st.jobData.value| ==>
                 st.jobData.value[i].analysis.Some?
                 && st.jobData.value[i].(analysis := ResultJobs(st.mcpResults.value)[i].analysis) == ResultJobs(st.mcpResults.value)[i]
  {
    JobSearchRoute(userId, input, env, routing);
    var s2 := SearchJobsStep(InitialState(userId, "job_search", input), env);
    assert s2.jobData == Some(ResultJobs(s2.mcpResults.value)) && s2.error == None;
  }

  /** Keywords that are not a string fail the tool's parameter check; the
      search still completes, with no jobs. */
  lemma JobSearchWithInvalidKeywords(userId: string, input: JsonObject, env: Env, routing: Routing)
    requires "keywords" in input && !input["keywords"].JStr?
    ensures RunWorkflow(userId, "job_search", input, env, routing).Completed?
    ensures var st := RunWorkflow(userId, "job_search", input, env, routing).state;
            && st.finalOutput.Some? && st.finalOutput.value.Status() == "completed"
            && st.jobData == Some([])
            && st.mcpResults == Some(Mcp.Failed("aggregate_jobs", env.clock.iso, Mcp.InvalidParametersMessage("aggregate_jobs")))
  {
    JobSearchRoute(userId, input, env, routing);
  }

  /** Steps leave `execution_time` alone: only the driver sets it. */
  lemma ExecuteKeepsExecutionTime(n: Node, s: AgentState, env: Env)
    ensures Execute(n, s, env).executionTime == s.executionTime
  {
    match n
    case CvAnalysis => assert AnalyzeCvStep(s, env).executionTime == s.executionTime;
    case JobSearch => assert SearchJobsStep(s, env).executionTime == s.executionTime;
    case JobAnalysis => assert AnalyzeJobsStep(s, env).executionTime == s.executionTime;
    case Matching => assert CalculateMatchesStep(s, env).executionTime == s.executionTime;
    case RecommendationGeneration => assert RecommendationsStep(s, env).executionTime == s.executionTime;
    case McpIntegration => assert IntegrateMcpStep(s, env).executionTime == s.executionTime;
    case _ =>
  }

  /** A run that returns has recorded a final output, built while the
      state's `execution_time` was still what it was at the start. */
  lemma {:induction false} RunRecordsOutput(n: Node, s: AgentState, env: Env, routing: Routing)
    requires n != End
    ensures var r := RunFrom(n, s, env, routing).result;
            r.Ok? ==> r.value.finalOutput.Some? && r.value.finalOutput.value.executionTime == s.executionTime
    decreases 5 - Rank(n)
  {
    var s' := Execute(n, s, env);
    ExecuteKeepsExecutionTime(n, s, env);
    var next := Next(n, s', routing);
    if next.Ok? {
      var m := next.value;
      SuccIsTable(n);
      RunThrough(n, s, env, routing, m);
      if m == End {
        RunFromTerminal(n, s, env, routing);
      } else {
        RunRecordsOutput(m, s', env, routing);
      }
    }
  }

  /** The envelope is built before the driver measures the run, so its
      `execution_time` is always `None`; only the returned state has it. */
  lemma OutputHasNoExecutionTime(userId: string, taskType: string, input: JsonObject, env: Env, routing: Routing)
    requires RunWorkflow(userId, taskType, input, env, routing).Completed?
    ensures var st := RunWorkflow(userId, taskType, input, env, routing).state;
            && st.finalOutput.Some? && st.finalOutput.value.executionTime == None
            && st.executionTime == Some(env.elapsed)
  {
    RunRecordsOutput(Start, InitialState(userId, taskType, input), env, routing);
  }

  /** From tool integration the run continues to output formatting. */
  lemma McpIntegrationTail(s: AgentState, env: Env, routing: Routing)
    ensures RunFrom(McpIntegration, s, env, routing).result == Ok(FormatOutput(IntegrateMcpStep(s, env), env))
  {
    FormatAfter(McpIntegration, s, env, routing);
    ExecuteMcpIntegration(s, env);
  }

  /** With the router returning path-map keys, a tool request naming an
      unregistered tool completes: the tool's failure is reported inside
      `mcp_results`, not as an error of the workflow. */
  lemma UnknownToolIsReportedNotFailed(userId: string, input: JsonObject, env: Env, name: string)
    requires "tool_name" in input && "parameters" in input
    requires input["tool_name"] == JStr(name) && input["parameters"].JObj?
    requires Mcp.LookupTool(name).None?
    ensures RunWorkflow(userId, "mcp_search", input, env, Intended).Completed?
    ensures var st := RunWorkflow(userId, "mcp_search", input, env, Intended).state;
            && st.finalOutput.Some? && st.finalOutput.value.Status() == "completed"
            && st.mcpResults == Some(Mcp.Failed(name, env.clock.iso, Mcp.NotFoundMessage(name)))
  {
    var s := InitialState(userId, "mcp_search", input);
    assert Next(InputValidation, s, Intended) == Ok(McpIntegration);
    AcceptedRoutesTo(userId, "mcp_search", input, env, Intended, McpIntegration);
    McpIntegrationTail(s, env, Intended);
    IntegrateMcpStepRunsTool(s, env);
  }
}
