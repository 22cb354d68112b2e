/** The tool service: a fixed registry of five tools (three job boards, a
    cross-board aggregator and a company lookup), parameter validation, the
    job boards' result shaping, and the aggregator's folding of per-board
    outcomes into one newest-first listing.

    The boards return canned listings; what varies is the keywords, the
    location, the company, the limit and the clock. The aggregator's
    per-board outcomes are an input (`outcome`), so no concurrency is
    modelled; `ExecuteTool` feeds it the boards' own results. */
module Mcp {
  import opened Common
  import StableSort

  datatype Provider = LinkedIn | Indeed | Glassdoor

  /** The name a caller uses for a board in `sources`. */
  function SourceName(p: Provider): string {
    match p
    case LinkedIn => "linkedin"
    case Indeed => "indeed"
    case Glassdoor => "glassdoor"
  }

  /** Position of a board in the fixed querying order. */
  function Rank(p: Provider): nat {
    match p
    case LinkedIn => 0
    case Indeed => 1
    case Glassdoor => 2
  }

  const AllProviders: seq<Provider> := [LinkedIn, Indeed, Glassdoor]
  const DefaultSources: Json := JArr([JStr("linkedin"), JStr("indeed"), JStr("glassdoor")])

  /** One job listing as the boards produce it. `analysis` is added later by
      the workflow's job-analysis step. */
  datatype Job = Job(
    id: string,
    title: string,
    company: Json,
    location: Json,
    description: string,
    url: string,
    postedAt: string,
    salary: string,
    jobType: Json,
    source: string,
    analysis: Option<JsonObject>)

  /** One entry of `errors`: the text `f"{source}: {message}"`. */
  datatype SourceError = SourceError(source: Json, message: string)

  datatype ToolData =
    | Listing(jobs: seq<Job>, total: nat, source: string)
    | Aggregate(jobs: seq<Job>, total: nat, sources: Json, successfulSources: seq<Json>,
                errors: Option<seq<SourceError>>, sourcesSearched: nat)
    | CompanyProfile(companyName: string, domain: Json, description: string)

  /** The dictionary every tool returns: `success`, then `data` or `error`,
      and `metadata` with the tool name and a timestamp. */
  datatype ToolResult =
    | Succeeded(tool: string, timestamp: string, data: ToolData)
    | Failed(tool: string, timestamp: string, error: string)

  datatype Tool = ProviderTool(provider: Provider) | AggregateTool | CompanyResearchTool

  datatype ToolInfo = ToolInfo(name: string, description: string)

  /** The service's tool table, in insertion order. */
  const Registry: seq<Tool> :=
    [ProviderTool(LinkedIn), ProviderTool(Indeed), ProviderTool(Glassdoor), AggregateTool, CompanyResearchTool]

  function ToolName(t: Tool): string {
    match t
    case ProviderTool(LinkedIn) => "linkedin_jobs"
    case ProviderTool(Indeed) => "indeed_jobs"
    case ProviderTool(Glassdoor) => "glassdoor_jobs"
    case AggregateTool => "aggregate_jobs"
    case CompanyResearchTool => "research_company"
  }

  function ToolDescription(t: Tool): string {
    match t
    case ProviderTool(LinkedIn) => "Search for jobs on LinkedIn"
    case ProviderTool(Indeed) => "Search for jobs on Indeed"
    case ProviderTool(Glassdoor) => "Search for jobs on Glassdoor with company ratings"
    case AggregateTool => "Search across multiple job boards simultaneously"
    case CompanyResearchTool => "Research company information and culture"
  }

  /** Where a tool sits in `Registry`. */
  function RegistryIndex(t: Tool): (i: nat)
    ensures i < |Registry| && Registry[i] == t
  {
    match t
    case ProviderTool(p) => Rank(p)
    case AggregateTool => 3
    case CompanyResearchTool => 4
  }

  /** `self.tools.get(name)` */
  function LookupTool(name: string): (r: Option<Tool>)
    ensures r.Some? ==> r.value in Registry && ToolName(r.value) == name
    ensures r.None? ==> forall t :: t in Registry ==> ToolName(t) != name
  {
    if name == "linkedin_jobs" then Some(ProviderTool(LinkedIn))
    else if name == "indeed_jobs" then Some(ProviderTool(Indeed))
    else if name == "glassdoor_jobs" then Some(ProviderTool(Glassdoor))
    else if name == "aggregate_jobs" then Some(AggregateTool)
    else if name == "research_company" then Some(CompanyResearchTool)
    else None
  }

  /** Each registered tool is found under its own name. */
  lemma LookupToolRoundTrip(t: Tool)
    ensures LookupTool(ToolName(t)) == Some(t)
  {
  }

  /** `validate_parameters`: the job tools need a string `keywords`, company
      research a string `company_name`. */
  predicate ValidParameters(t: Tool, params: JsonObject) {
    var key := if t.CompanyResearchTool? then "company_name" else "keywords";
    key in params && params[key].JStr?
  }

  // ---------------------------------------------------------------------
  // Python slicing by a caller-supplied limit

  const SliceTypeMessage: string := "slice indices must be integers or None or have an __index__ method"

  /** `xs[:limit]` where `limit` comes from the request: an integer (a bool
      counts as 0 or 1) or `None` slices, anything else raises `TypeError`. */
  function SliceByLimit<T>(xs: seq<T>, limit: Json): (r: Outcome<seq<T>>)
    ensures r.Ok? <==> limit.JNum? || limit.JBool? || limit.JNull?
    ensures r.Raise? ==> r.msg == SliceTypeMessage
    ensures r.Ok? ==> |r.value| <= |xs| && r.value == xs[..|r.value|]
    ensures limit.JNum? && limit.n >= 0 ==> r.Ok? && |r.value| == if limit.n < |xs| then limit.n else |xs|
    ensures limit.JNull? ==> r == Ok(xs)
  {
    match limit
    case JNum(n) => Ok(Prefix(xs, n))
    case JBool(b) => Ok(Prefix(xs, if b then 1 else 0))
    case JNull => Ok(xs)
    case _ => Raise(SliceTypeMessage)
  }

  // ---------------------------------------------------------------------
  // The job boards

  /** `value or default` for a request field. */
  function OrText(value: Json, default: string): (r: Json)
    ensures Truthy(value) ==> r == value
    ensures !Truthy(value) ==> r == JStr(default)
  {
    if Truthy(value) then value else JStr(default)
  }

  /** The canned listing a board builds for the request. */
  function BoardJob(p: Provider, keywords: string, params: JsonObject, clock: Clock): (r: Job)
    ensures r.location == OrText(Get(params, "location", JStr("")), "Remote")
    ensures r.source == SourceName(p) && r.id == SourceName(p) + "_" + clock.epoch
    ensures r.postedAt == clock.iso && r.analysis.None?
  {
    var location := OrText(Get(params, "location", JStr("")), "Remote");
    var jobType := OrText(Get(params, "job_type", JStr("")), "Full-time");
    match p
    case LinkedIn =>
      Job("linkedin_" + clock.epoch, keywords + " Developer", JStr("TechCorp"), location,
          "We are looking for a talented " + keywords + " developer...",
          "https://linkedin.com/jobs/view/123456", clock.iso, "$50,000 - $80,000",
          jobType, "linkedin", None)
    case Indeed =>
      Job("indeed_" + clock.epoch, keywords + " Specialist", JStr("CompanyXYZ"), location,
          "Join our team as a " + keywords + " specialist...",
          "https://indeed.com/viewjob?jk=123456", clock.iso, "$45,000 - $65,000",
          jobType, "indeed", None)
    case Glassdoor =>
      Job("glassdoor_" + clock.epoch, "Senior " + keywords,
          OrText(Get(params, "company", JStr("")), "GreatCompany"), location,
          "Excellent opportunity for a Senior " + keywords + "...",
          "https://glassdoor.com/job-listing?jl=123456", clock.iso, "$60,000 - $90,000",
          JStr("Full-time"), "glassdoor", None)
  }

  /** A board's `execute`: its one canned listing cut to `limit` (default 10),
      with `total` counting the listing before the cut. A limit that cannot
      slice is caught and reported as a failed result. */
  function ProviderExecute(p: Provider, keywords: string, params: JsonObject, clock: Clock): (r: ToolResult)
    ensures r.tool == ToolName(ProviderTool(p)) && r.timestamp == clock.iso
    ensures r.Succeeded? <==> SliceByLimit([0], Get(params, "limit", JNum(10))).Ok?
    ensures r.Failed? ==> r.error == SliceTypeMessage
    ensures r.Succeeded? ==> r.data.Listing? && r.data.total == 1 && r.data.source == SourceName(p)
    ensures r.Succeeded? ==> |r.data.jobs| <= 1 && forall j :: j in r.data.jobs ==> j == BoardJob(p, keywords, params, clock)
  {
    var tool := ToolName(ProviderTool(p));
    var limit := Get(params, "limit", JNum(10));
    match SliceByLimit([BoardJob(p, keywords, params, clock)], limit)
    case Ok(jobs) => Succeeded(tool, clock.iso, Listing(jobs, 1, SourceName(p)))
    case Raise(m) => Failed(tool, clock.iso, m)
  }

  // ---------------------------------------------------------------------
  // Aggregation

  /** `name in sources`: list membership, substring test on a string, key
      test on a dict; `None`, booleans and numbers are not iterable. */
  function Mentions(sources: Json, name: string): (r: Outcome<bool>)
    ensures r.Raise? <==> !(sources.JArr? || sources.JStr? || sources.JObj?)
  {
    match sources
    case JArr(items) => Ok(JStr(name) in items)
    case JStr(s) => Ok(IsSubstring(name, s))
    case JObj(fields) => Ok(name in fields)
    case _ => Raise("argument of type '" + TypeName(sources) + "' is not iterable")
  }

  /** The boards the aggregator queries, in its fixed order. */
  function Queried(sources: Json): (r: Outcome<seq<Provider>>)
    ensures r.Raise? <==> !(sources.JArr? || sources.JStr? || sources.JObj?)
    ensures r.Ok? ==> forall p :: p in r.value <==> Mentions(sources, SourceName(p)) == Ok(true)
    ensures r.Ok? ==> forall i, j :: 0 <= i < j < |r.value| ==> Rank(r.value[i]) < Rank(r.value[j])
  {
    match Mentions(sources, "linkedin")
    case Raise(m) => Raise(m)
    case Ok(l) =>
      var i := Mentions(sources, "indeed").value;
      var g := Mentions(sources, "glassdoor").value;
      Ok((if l then [LinkedIn] else []) + (if i then [Indeed] else []) + (if g then [Glassdoor] else []))
  }

  /** `len(sources)` once `sources` is known to be iterable. */
  function SourcesLength(sources: Json): nat {
    match sources
    case JArr(items) => |items|
    case JStr(s) => |s|
    case JObj(fields) => |fields|
    case _ => 0
  }

  /** `sources[i]`: the label the aggregator gives its i-th result. */
  function PositionalLabel(sources: Json, i: nat): (r: Outcome<Json>)
    ensures sources.JArr? && i < |sources.items| ==> r == Ok(sources.items[i])
    ensures sources.JObj? ==> r == Raise(NatText(i))
  {
    match sources
    case JArr(items) => if i < |items| then Ok(items[i]) else Raise("list index out of range")
    case JStr(s) => if i < |s| then Ok(JStr([s[i]])) else Raise("string index out of range")
    case JObj(_) => Raise(NatText(i))
    case _ => Raise("'" + TypeName(sources) + "' object is not subscriptable")
  }

  /** What one board call produced: an escaping exception or a result. */
  datatype ProviderOutcome = Threw(msg: string) | Returned(result: ToolResult)

  predicate Delivered(o: ProviderOutcome) {
    o.Returned? && o.result.Succeeded?
  }

  /** `result.get("data", {}).get("jobs", [])` for a delivered result. */
  function DeliveredJobs(o: ProviderOutcome): seq<Job>
    requires Delivered(o)
  {
    match o.result.data
    case Listing(jobs, _, _) => jobs
    case Aggregate(jobs, _, _, _, _, _) => jobs
    case CompanyProfile(_, _, _) => []
  }

  /** The message recorded for an undelivered outcome. */
  function FailureMessage(o: ProviderOutcome): string
    requires !Delivered(o)
  {
    match o
    case Threw(m) => m
    case Returned(r) => r.error
  }

  datatype Gathered = Gathered(jobs: seq<Job>, successful: seq<Json>, errors: seq<SourceError>)

  function CountDelivered(results: seq<ProviderOutcome>): nat {
    if |results| == 0 then 0
    else CountDelivered(results[..|results| - 1]) + (if Delivered(results[|results| - 1]) then 1 else 0)
  }

  function TotalDelivered(results: seq<ProviderOutcome>): nat {
    if |results| == 0 then 0
    else
      var last := results[|results| - 1];
      TotalDelivered(results[..|results| - 1]) + (if Delivered(last) then |DeliveredJobs(last)| else 0)
  }

  /** The aggregator's loop over results: result `i`, labelled `labels[i]`,
      adds its jobs and its label to the gathered lists when delivered, and an
      error entry otherwise. Evaluating a label may itself raise, which ends
      the loop. */
  function Collect(results: seq<ProviderOutcome>, labels: seq<Outcome<Json>>): (r: Outcome<Gathered>)
    requires |labels| == |results|
    ensures r.Ok? <==> forall i :: 0 <= i < |labels| ==> labels[i].Ok?
    ensures r.Raise? ==> exists i :: 0 <= i < |labels| && labels[i] == Raise(r.msg)
    ensures r.Ok? ==> |r.value.successful| == CountDelivered(results)
    ensures r.Ok? ==> |r.value.successful| + |r.value.errors| == |results|
    ensures r.Ok? ==> |r.value.jobs| == TotalDelivered(results)
    ensures r.Ok? ==> forall x :: x in r.value.successful <==>
              exists i :: 0 <= i < |results| && Delivered(results[i]) && labels[i] == Ok(x)
    ensures r.Ok? ==> forall e :: e in r.value.errors <==>
              exists i :: 0 <= i < |results| && !Delivered(results[i]) && labels[i].Ok?
                          && e == SourceError(labels[i].value, FailureMessage(results[i]))
    ensures r.Ok? ==> forall j :: j in r.value.jobs <==>
              exists i :: 0 <= i < |results| && Delivered(results[i]) && j in DeliveredJobs(results[i])
  {
    if |results| == 0 then Ok(Gathered([], [], []))
    else
      var n := |results| - 1;
      var front, last := results[..n], results[n];
      assert forall i :: 0 <= i < n ==> front[i] == results[i];
      assert forall i :: 0 <= i < n ==> labels[..n][i] == labels[i];
      match Collect(front, labels[..n])
      case Raise(m) => Raise(m)
      case Ok(g) =>
        match labels[n]
        case Raise(m) => Raise(m)
        case Ok(name) =>
          if Delivered(last) then
            Ok(Gathered(g.jobs + DeliveredJobs(last), g.successful + [name], g.errors))
          else
            Ok(Gathered(g.jobs, g.successful, g.errors + [SourceError(name, FailureMessage(last))]))
  }

  /** Newest first by `posted_at` (ISO timestamps compare as strings). */
  function ByNewest(jobs: seq<Job>): (r: seq<Job>)
    ensures multiset(r) == multiset(jobs)
  {
    StableSort.SortDesc(jobs, (j: Job) => j.postedAt, (a: string, b: string) => StrLe(a, b))
  }

  lemma StrLeTotalOrder()
    ensures StableSort.TotalOrder((a: string, b: string) => StrLe(a, b))
  {
    forall a: string
      ensures StrLe(a, a)
    {
      StrLeReflexive(a);
    }
    forall a: string, b: string | StrLe(a, b) && StrLe(b, a)
      ensures a == b
    {
      StrLeAntisymmetric(a, b);
    }
    forall a: string, b: string, c: string | StrLe(a, b) && StrLe(b, c)
      ensures StrLe(a, c)
    {
      StrLeTransitive(a, b, c);
    }
    forall a: string, b: string
      ensures StrLe(a, b) || StrLe(b, a)
    {
      StrLeTotal(a, b);
    }
  }

  /** `ByNewest` is the stable newest-first order: posting times never
      increase, and listings posted at the same instant keep their order. */
  lemma ByNewestOrdered(jobs: seq<Job>, t: string)
    ensures StableSort.SortedDesc(ByNewest(jobs), (j: Job) => j.postedAt, (a: string, b: string) => StrLe(a, b))
    ensures StableSort.WithKey(ByNewest(jobs), (j: Job) => j.postedAt, t)
         == StableSort.WithKey(jobs, (j: Job) => j.postedAt, t)
  {
    StrLeTotalOrder();
    StableSort.SortDescSorted(jobs, (j: Job) => j.postedAt, (a: string, b: string) => StrLe(a, b));
    StableSort.SortDescStable(jobs, (j: Job) => j.postedAt, (a: string, b: string) => StrLe(a, b), t);
  }

  /** How the aggregator names its results: by position in `sources`, as
      written, or by the board actually queried. */
  datatype Labelling = Positional | ByBoard

  function Labels(sources: Json, queried: seq<Provider>, labelling: Labelling): (r: seq<Outcome<Json>>)
    ensures |r| == |queried|
  {
    seq(|queried|, i requires 0 <= i < |queried| =>
      if labelling.Positional? then PositionalLabel(sources, i) else Ok(JStr(SourceName(queried[i]))))
  }

  /** The outcomes of the queried boards, in querying order. */
  function BoardResults(queried: seq<Provider>, outcome: Provider -> ProviderOutcome): (r: seq<ProviderOutcome>)
    ensures |r| == |queried|
    ensures forall i :: 0 <= i < |r| ==> r[i] == outcome(queried[i])
  {
    seq(|queried|, i requires 0 <= i < |queried| => outcome(queried[i]))
  }

  /** The aggregator's `execute` under a given labelling. */
  function AggregateWith(params: JsonObject, now: Clock, outcome: Provider -> ProviderOutcome, labelling: Labelling): (r: ToolResult)
    ensures r.tool == "aggregate_jobs" && r.timestamp == now.iso
  {
    var sources := Get(params, "sources", DefaultSources);
    match Queried(sources)
    case Raise(m) => Failed("aggregate_jobs", now.iso, m)
    case Ok(queried) =>
      match Collect(BoardResults(queried, outcome), Labels(sources, queried, labelling))
      case Raise(m) => Failed("aggregate_jobs", now.iso, m)
      case Ok(g) =>
        var sorted := ByNewest(g.jobs);
        match SliceByLimit(sorted, Get(params, "limit", JNum(20)))
        case Raise(m) => Failed("aggregate_jobs", now.iso, m)
        case Ok(shown) =>
          Succeeded("aggregate_jobs", now.iso,
            Aggregate(shown, |sorted|, sources, g.successful,
                      if g.errors == [] then None else Some(g.errors), SourcesLength(sources)))
  }

  /** `AggregateJobsTool.execute` as written: result `i` is labelled
      `sources[i]`, whichever board produced it. */
  function AggregateAsWritten(params: JsonObject, now: Clock, outcome: Provider -> ProviderOutcome): (r: ToolResult)
    ensures r.tool == "aggregate_jobs"
  {
    AggregateWith(params, now, outcome, Positional)
  }

  /** The aggregator with each result labelled by the board that produced it;
      the rest of the model uses this one. */
  function AggregateJobs(params: JsonObject, now: Clock, outcome: Provider -> ProviderOutcome): (r: ToolResult)
    ensures r.tool == "aggregate_jobs" && r.timestamp == now.iso
    ensures r.Failed? ==> r.error == SliceTypeMessage || (exists t :: r.error == "argument of type '" + t + "' is not iterable")
  {
    AggregateWith(params, now, outcome, ByBoard)
  }

  /** A successful aggregation, taken apart: the gathered lists of the
      queried boards, sorted newest first and cut to the limit. */
  lemma AggregateUnfold(params: JsonObject, now: Clock, outcome: Provider -> ProviderOutcome, labelling: Labelling)
    returns (queried: seq<Provider>, g: Gathered)
    requires AggregateWith(params, now, outcome, labelling).Succeeded?
    ensures Queried(Get(params, "sources", DefaultSources)) == Ok(queried)
    ensures Collect(BoardResults(queried, outcome), Labels(Get(params, "sources", DefaultSources), queried, labelling)) == Ok(g)
    ensures var r := AggregateWith(params, now, outcome, labelling).data;
      && r.Aggregate?
      && r.sources == Get(params, "sources", DefaultSources)
      && SliceByLimit(ByNewest(g.jobs), Get(params, "limit", JNum(20))) == Ok(r.jobs)
      && r.total == |g.jobs|
      && r.successfulSources == g.successful
      && r.errors == (if g.errors == [] then None else Some(g.errors))
  {
    var sources := Get(params, "sources", DefaultSources);
    queried := Queried(sources).value;
    g := Collect(BoardResults(queried, outcome), Labels(sources, queried, labelling)).value;
  }

  /** A successful aggregation, under either labelling, lists its jobs
      newest first, at most `limit` of them (20 when no limit is given), and
      `total` counts them before the cut. */
  lemma AggregateJobsNewestFirst(params: JsonObject, now: Clock, outcome: Provider -> ProviderOutcome, labelling: Labelling)
    requires AggregateWith(params, now, outcome, labelling).Succeeded?
    ensures var r := AggregateWith(params, now, outcome, labelling).data;
      && r.Aggregate?
      && StableSort.SortedDesc(r.jobs, (j: Job) => j.postedAt, (a: string, b: string) => StrLe(a, b))
      && |r.jobs| <= r.total
      && ("limit" !in params ==> |r.jobs| == if r.total < 20 then r.total else 20)
  {
    var queried, g := AggregateUnfold(params, now, outcome, labelling);
    var r := AggregateWith(params, now, outcome, labelling).data;
    var sorted := ByNewest(g.jobs);
    ByNewestOrdered(g.jobs, "");
    var key := (j: Job) => j.postedAt;
    var le := (a: string, b: string) => StrLe(a, b);
    assert r.jobs == sorted[..|r.jobs|];
    forall i, j | 0 <= i < j < |r.jobs|
      ensures le(key(r.jobs[j]), key(r.jobs[i]))
    {
      assert r.jobs[i] == sorted[i] && r.jobs[j] == sorted[j];
    }
  }

  /** Under either labelling, every listed job was delivered by a board
      named in `sources`. */
  lemma AggregateJobsProvenance(params: JsonObject, now: Clock, outcome: Provider -> ProviderOutcome, labelling: Labelling,
                                j: Job)
    requires AggregateWith(params, now, outcome, labelling).Succeeded?
    requires j in AggregateWith(params, now, outcome, labelling).data.jobs
    ensures exists p :: Mentions(Get(params, "sources", DefaultSources), SourceName(p)) == Ok(true)
                        && Delivered(outcome(p)) && j in DeliveredJobs(outcome(p))
  {
    var queried, g := AggregateUnfold(params, now, outcome, labelling);
    var sorted := ByNewest(g.jobs);
    var results := BoardResults(queried, outcome);
    assert j in sorted;
    assert j in multiset(sorted);
    assert j in g.jobs;
    var i :| 0 <= i < |results| && Delivered(results[i]) && j in DeliveredJobs(results[i]);
    assert queried[i] in queried;
  }

  /** Under either labelling, `errors` is `None` exactly when every board
      named in `sources` delivered. */
  lemma AggregateErrorsNone(params: JsonObject, now: Clock, outcome: Provider -> ProviderOutcome, labelling: Labelling)
    requires AggregateWith(params, now, outcome, labelling).Succeeded?
    ensures AggregateWith(params, now, outcome, labelling).data.errors.None? <==>
      forall p :: Mentions(Get(params, "sources", DefaultSources), SourceName(p)) == Ok(true) ==> Delivered(outcome(p))
  {
    var queried, g := AggregateUnfold(params, now, outcome, labelling);
    GatheredErrorsEmpty(Get(params, "sources", DefaultSources), queried, outcome, labelling, g);
  }

  /** The gathered errors are empty exactly when every board named in
      `sources` delivered. */
  lemma GatheredErrorsEmpty(sources: Json, queried: seq<Provider>, outcome: Provider -> ProviderOutcome,
                            labelling: Labelling, g: Gathered)
    requires Queried(sources) == Ok(queried)
    requires Collect(BoardResults(queried, outcome), Labels(sources, queried, labelling)) == Ok(g)
    ensures g.errors == [] <==> forall p :: Mentions(sources, SourceName(p)) == Ok(true) ==> Delivered(outcome(p))
  {
    var results := BoardResults(queried, outcome);
    var labels := Labels(sources, queried, labelling);
    if g.errors == [] {
      forall p | Mentions(sources, SourceName(p)) == Ok(true)
        ensures Delivered(outcome(p))
      {
        assert p in queried;
        var i :| 0 <= i < |queried| && queried[i] == p;
        assert labels[i].Ok?;
        assert !Delivered(outcome(p)) ==> SourceError(labels[i].value, FailureMessage(results[i])) in g.errors;
      }
    } else {
      var e := g.errors[0];
      assert e in g.errors;
      var i :| 0 <= i < |results| && !Delivered(results[i]) && labels[i].Ok?
               && e == SourceError(labels[i].value, FailureMessage(results[i]));
      assert queried[i] in queried;
    }
  }

  /** With the corrected labels, `successful_sources` names exactly the
      boards, among those named in `sources`, that delivered. */
  lemma AggregateCreditsBoards(params: JsonObject, now: Clock, outcome: Provider -> ProviderOutcome, x: Json)
    requires AggregateJobs(params, now, outcome).Succeeded?
    ensures x in AggregateJobs(params, now, outcome).data.successfulSources <==>
      exists p :: Mentions(Get(params, "sources", DefaultSources), SourceName(p)) == Ok(true)
                  && Delivered(outcome(p)) && x == JStr(SourceName(p))
  {
    var queried, g := AggregateUnfold(params, now, outcome, ByBoard);
    GatheredCreditsBoards(Get(params, "sources", DefaultSources), queried, outcome, g, x);
  }

  /** The gathered successes name exactly the delivering boards among those
      named in `sources`. */
  lemma GatheredCreditsBoards(sources: Json, queried: seq<Provider>, outcome: Provider -> ProviderOutcome, g: Gathered, x: Json)
    requires Queried(sources) == Ok(queried)
    requires Collect(BoardResults(queried, outcome), Labels(sources, queried, ByBoard)) == Ok(g)
    ensures x in g.successful <==>
      exists p :: Mentions(sources, SourceName(p)) == Ok(true) && Delivered(outcome(p)) && x == JStr(SourceName(p))
  {
    var results := BoardResults(queried, outcome);
    var labels := Labels(sources, queried, ByBoard);
    if x in g.successful {
      var i :| 0 <= i < |results| && Delivered(results[i]) && labels[i] == Ok(x);
      assert queried[i] in queried;
    }
    if exists p :: Mentions(sources, SourceName(p)) == Ok(true) && Delivered(outcome(p)) && x == JStr(SourceName(p)) {
      var p :| Mentions(sources, SourceName(p)) == Ok(true) && Delivered(outcome(p)) && x == JStr(SourceName(p));
      assert p in queried;
      var i :| 0 <= i < |queried| && queried[i] == p;
      assert Delivered(results[i]) && labels[i] == Ok(x);
    }
  }

  /** As written, `successful_sources` holds `sources[i]` for every position
      `i` whose queried board delivered: the label comes from the position,
      not from the board. */
  lemma AsWrittenCreditsPositions(params: JsonObject, now: Clock, outcome: Provider -> ProviderOutcome, x: Json)
    requires AggregateAsWritten(params, now, outcome).Succeeded?
    ensures var sources := Get(params, "sources", DefaultSources);
      var queried := Queried(sources).value;
      x in AggregateAsWritten(params, now, outcome).data.successfulSources <==>
        exists i :: 0 <= i < |queried| && Delivered(outcome(queried[i])) && PositionalLabel(sources, i) == Ok(x)
  {
    var queried, g := AggregateUnfold(params, now, outcome, Positional);
    var results := BoardResults(queried, outcome);
    var labels := Labels(Get(params, "sources", DefaultSources), queried, Positional);
    assert forall i :: 0 <= i < |queried| ==> results[i] == outcome(queried[i]) && labels[i] == PositionalLabel(Get(params, "sources", DefaultSources), i);
  }

  /** The two labellings agree on a query exactly when `sources` is a list
      that names the queried boards first, in querying order. A string
      cannot agree, since its items are single characters; a dict cannot,
      since indexing it by position raises. */
  lemma LabelsAgree(sources: Json, queried: seq<Provider>)
    requires Queried(sources) == Ok(queried) && |queried| > 0
    ensures Labels(sources, queried, Positional) == Labels(sources, queried, ByBoard) <==>
      && sources.JArr? && |queried| <= |sources.items|
      && forall i :: 0 <= i < |queried| ==> sources.items[i] == JStr(SourceName(queried[i]))
  {
    var pos, named := Labels(sources, queried, Positional), Labels(sources, queried, ByBoard);
    assert named[0] == Ok(JStr(SourceName(queried[0])));
    assert pos[0] == PositionalLabel(sources, 0);
    assert |SourceName(queried[0])| > 1;
    if pos == named && sources.JArr? {
      forall i | 0 <= i < |queried|
        ensures i < |sources.items| && sources.items[i] == JStr(SourceName(queried[i]))
      {
        assert pos[i] == named[i];
      }
    }
  }

  /** A label that raises at the first result stops the aggregator's loop
      before anything is gathered, with that label's error. */
  lemma {:induction false} CollectFirstLabelRaises(results: seq<ProviderOutcome>, labels: seq<Outcome<Json>>)
    requires |labels| == |results| && |labels| > 0 && labels[0].Raise?
    ensures Collect(results, labels) == Raise(labels[0].msg)
    decreases |results|
  {
    var n := |results| - 1;
    if n > 0 {
      assert labels[..n][0] == labels[0];
      CollectFirstLabelRaises(results[..n], labels[..n]);
    } else {
      assert Collect(results[..n], labels[..n]) == Ok(Gathered([], [], []));
    }
  }

  /** As written, `sources` given as a dict that names a known board makes
      the aggregation fail with the `KeyError` of `sources[0]`, whose text is
      "0"; with the corrected labels the same request succeeds whenever the
      limit slices. */
  lemma AsWrittenDictSourcesFail(params: JsonObject, now: Clock, outcome: Provider -> ProviderOutcome)
    requires "sources" in params && params["sources"].JObj?
    requires exists p :: SourceName(p) in params["sources"].fields
    ensures AggregateAsWritten(params, now, outcome) == Failed("aggregate_jobs", now.iso, "0")
  {
    var sources := params["sources"];
    var p :| SourceName(p) in sources.fields;
    var queried := Queried(sources).value;
    assert Mentions(sources, SourceName(p)) == Ok(true);
    assert p in queried;
    var labels := Labels(sources, queried, Positional);
    assert labels[0] == Raise(NatText(0));
    CollectFirstLabelRaises(BoardResults(queried, outcome), labels);
  }

  /** When the labellings agree on the boards a request queries, the
      aggregation does not depend on which one is used. */
  lemma AgreeingLabelsAggregateAlike(params: JsonObject, now: Clock, outcome: Provider -> ProviderOutcome)
    requires var sources := Get(params, "sources", DefaultSources);
      Queried(sources).Ok? ==> Labels(sources, Queried(sources).value, Positional) == Labels(sources, Queried(sources).value, ByBoard)
    ensures AggregateAsWritten(params, now, outcome) == AggregateJobs(params, now, outcome)
  {
  }

  /** The default sources list the three boards in querying order, so a
      request that leaves `sources` at its default is labelled correctly
      even as written. */
  lemma DefaultSourcesLabelCorrectly(params: JsonObject, now: Clock, outcome: Provider -> ProviderOutcome)
    requires Get(params, "sources", DefaultSources) == DefaultSources
    ensures AggregateAsWritten(params, now, outcome) == AggregateJobs(params, now, outcome)
  {
    var queried := [LinkedIn, Indeed, Glassdoor];
    assert Mentions(DefaultSources, "linkedin") == Ok(true);
    assert Mentions(DefaultSources, "indeed") == Ok(true);
    assert Mentions(DefaultSources, "glassdoor") == Ok(true);
    assert [LinkedIn] + [Indeed] + [Glassdoor] == queried;
    assert Queried(DefaultSources) == Ok(queried);
    LabelsAgree(DefaultSources, queried);
    AgreeingLabelsAggregateAlike(params, now, outcome);
  }

  /** Positional labels misname results as soon as `sources` does not list
      the boards in querying order: with `sources = ["monster", "linkedin"]`
      only LinkedIn is queried, yet its success is credited to "monster". */
  lemma PositionalLabelsMisnameBoards(now: Clock, outcome: Provider -> ProviderOutcome)
    requires Delivered(outcome(LinkedIn))
    ensures var params := map["keywords" := JStr("python"),
                               "sources" := JArr([JStr("monster"), JStr("linkedin")])];
      && AggregateAsWritten(params, now, outcome).data.successfulSources == [JStr("monster")]
      && AggregateJobs(params, now, outcome).data.successfulSources == [JStr("linkedin")]
  {
    var params := map["keywords" := JStr("python"),
                      "sources" := JArr([JStr("monster"), JStr("linkedin")])];
    var sources := JArr([JStr("monster"), JStr("linkedin")]);
    assert Get(params, "sources", DefaultSources) == sources;
    assert Get(params, "limit", JNum(20)) == JNum(20);
    assert Queried(sources) == Ok([LinkedIn]) by {
      assert JStr("linkedin") in sources.items;
      assert JStr("indeed") !in sources.items;
      assert JStr("glassdoor") !in sources.items;
      assert Mentions(sources, "linkedin") == Ok(true);
      assert Mentions(sources, "indeed") == Ok(false);
      assert Mentions(sources, "glassdoor") == Ok(false);
      assert [LinkedIn] + [] + [] == [LinkedIn];
    }
    assert Labels(sources, [LinkedIn], Positional) == [Ok(JStr("monster"))];
    assert Labels(sources, [LinkedIn], ByBoard) == [Ok(JStr("linkedin"))];
    OneBoardCredited(params, now, outcome, Positional, LinkedIn, JStr("monster"));
    OneBoardCredited(params, now, outcome, ByBoard, LinkedIn, JStr("linkedin"));
  }

  /** When a single board is queried and delivers, its success is credited
      to the label it gets. */
  lemma OneBoardCredited(params: JsonObject, now: Clock, outcome: Provider -> ProviderOutcome, labelling: Labelling,
                         p: Provider, x: Json)
    requires Queried(Get(params, "sources", DefaultSources)) == Ok([p])
    requires Labels(Get(params, "sources", DefaultSources), [p], labelling) == [Ok(x)]
    requires Delivered(outcome(p)) && Get(params, "limit", JNum(20)) == JNum(20)
    ensures AggregateWith(params, now, outcome, labelling).Succeeded?
    ensures AggregateWith(params, now, outcome, labelling).data.successfulSources == [x]
  {
    var results := BoardResults([p], outcome);
    assert results == [outcome(p)];
    assert Collect(results[..0], [Ok(x)][..0]) == Ok(Gathered([], [], []));
    assert Collect(results, [Ok(x)]) == Ok(Gathered([] + DeliveredJobs(outcome(p)), [] + [x], []));
  }

  // ---------------------------------------------------------------------
  // Company research

  /** Company research: the domain is the one given, or the company name
      lower-cased with its spaces removed, plus ".com". */
  function CompanyResearch(companyName: string, params: JsonObject, now: Clock): (r: ToolResult)
    ensures r.Succeeded? && r.tool == "research_company" && r.data.CompanyProfile?
    ensures r.data.companyName == companyName
    ensures var d := Get(params, "domain", JStr(""));
      Truthy(d) ==> r.data.domain == d
    ensures !Truthy(Get(params, "domain", JStr(""))) ==>
      r.data.domain.JStr? && ' ' !in r.data.domain.s
      && exists host :: r.data.domain.s == host + ".com" && |host| <= |companyName|
    ensures !Truthy(Get(params, "domain", JStr(""))) ==>
      r.data.domain == JStr(Without(Lower(companyName), ' ') + ".com")
  {
    var d := Get(params, "domain", JStr(""));
    var host := Without(Lower(companyName), ' ');
    var domain := if Truthy(d) then d else JStr(host + ".com");
    Succeeded("research_company", now.iso,
      CompanyProfile(companyName, domain, companyName + " is a leading company in the technology sector..."))
  }

  // ---------------------------------------------------------------------
  // The service

  function NotFoundMessage(name: string): string {
    "Tool '" + name + "' not found"
  }

  function InvalidParametersMessage(name: string): string {
    "Invalid parameters for tool '" + name + "'"
  }

  /** The aggregator's view of the three boards' own `execute`. */
  function BoardOutcomes(keywords: string, params: JsonObject, boardClock: Provider -> Clock): (r: Provider -> ProviderOutcome)
    ensures forall p :: r(p) == Returned(ProviderExecute(p, keywords, params, boardClock(p)))
  {
    (p: Provider) => Returned(ProviderExecute(p, keywords, params, boardClock(p)))
  }

  /** `MCPService.execute_tool`. `now` is the service's clock reading and
      `boardClock(p)` the reading taken inside board `p`. */
  function ExecuteTool(name: string, params: JsonObject, now: Clock, boardClock: Provider -> Clock,
                       labelling: Labelling): (r: ToolResult)
    ensures LookupTool(name).None? ==> r == Failed(name, now.iso, NotFoundMessage(name))
    ensures LookupTool(name).Some? && !ValidParameters(LookupTool(name).value, params)
            ==> r == Failed(name, now.iso, InvalidParametersMessage(name))
    ensures r.tool == name
  {
    match LookupTool(name)
    case None => Failed(name, now.iso, NotFoundMessage(name))
    case Some(t) =>
      if !ValidParameters(t, params) then Failed(name, now.iso, InvalidParametersMessage(name))
      else
        match t
        case ProviderTool(p) => ProviderExecute(p, params["keywords"].s, params, boardClock(p))
        case AggregateTool =>
          AggregateWith(params, now, BoardOutcomes(params["keywords"].s, params, boardClock), labelling)
        case CompanyResearchTool => CompanyResearch(params["company_name"].s, params, now)
  }

  /** Through the service, the boards can fail only together and only on a
      limit that cannot slice, in which case the aggregate fails on the same
      limit; so a successful aggregate never reports errors, under either
      labelling. */
  lemma ServiceAggregateHasNoErrors(params: JsonObject, now: Clock, boardClock: Provider -> Clock, labelling: Labelling)
    requires ExecuteTool("aggregate_jobs", params, now, boardClock, labelling).Succeeded?
    ensures ExecuteTool("aggregate_jobs", params, now, boardClock, labelling).data.errors.None?
  {
    var keywords := params["keywords"].s;
    var outcome := BoardOutcomes(keywords, params, boardClock);
    var queried, g := AggregateUnfold(params, now, outcome, labelling);
    assert SliceByLimit(ByNewest(g.jobs), Get(params, "limit", JNum(20))).Ok?;
    assert SliceByLimit([0], Get(params, "limit", JNum(10))).Ok?;
    forall p
      ensures Delivered(outcome(p))
    {
      assert outcome(p) == Returned(ProviderExecute(p, keywords, params, boardClock(p)));
    }
    AggregateErrorsNone(params, now, outcome, labelling);
  }

  /** A request that leaves `sources` at its default gets the same answer
      from the service under either labelling. */
  lemma DefaultSourcesExecuteAlike(name: string, params: JsonObject, now: Clock, boardClock: Provider -> Clock)
    requires Get(params, "sources", DefaultSources) == DefaultSources
    ensures ExecuteTool(name, params, now, boardClock, Positional) == ExecuteTool(name, params, now, boardClock, ByBoard)
  {
    if LookupTool(name) == Some(AggregateTool) && ValidParameters(AggregateTool, params) {
      DefaultSourcesLabelCorrectly(params, now, BoardOutcomes(params["keywords"].s, params, boardClock));
    }
  }

  /** `list_tools`: name and description of every registered tool, in
      registration order. */
  function ListTools(): (r: seq<ToolInfo>)
    ensures |r| == |Registry|
    ensures forall i :: 0 <= i < |r| ==> r[i] == ToolInfo(ToolName(Registry[i]), ToolDescription(Registry[i]))
  {
    seq(|Registry|, i requires 0 <= i < |Registry| => ToolInfo(ToolName(Registry[i]), ToolDescription(Registry[i])))
  }

  /** `get_tool_info`: `None` for an unknown name. */
  function GetToolInfo(name: string): (r: Option<ToolInfo>)
    ensures r.Some? <==> exists t :: t in Registry && ToolName(t) == name
    ensures r.Some? ==> r.value in ListTools() && r.value.name == name
  {
    match LookupTool(name)
    case None => None
    case Some(t) =>
      assert ListTools()[RegistryIndex(t)] == ToolInfo(ToolName(t), ToolDescription(t));
      Some(ToolInfo(ToolName(t), ToolDescription(t)))
  }
}
