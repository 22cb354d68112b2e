/** The request schemas' constraints: which field values validation
    accepts, the defaults it fills in, and the closed value sets of the
    status enumerations. Fields arrive already typed; `None` stands for a
    field that is absent (or, for an optional field, null). */
module Schemas {
  import opened Common
  import opened Store
  import Tasks

  // ---------------------------------------------------------------------
  // Enumerations

  datatype UserRole = User | Admin {
    function Value(): string {
      match this
      case User => "user"
      case Admin => "admin"
    }
  }

  /** A role is parsed from exactly its value. */
  function ParseUserRole(s: string): (r: Option<UserRole>)
    ensures forall e: UserRole :: r == Some(e) <==> e.Value() == s
  {
    if s == "user" then Some(User)
    else if s == "admin" then Some(Admin)
    else None
  }

  /** The status of a job match. */
  datatype JobStatus = Pending | Reviewed | Applied | Rejected {
    function Value(): string {
      match this
      case Pending => "pending"
      case Reviewed => "reviewed"
      case Applied => "applied"
      case Rejected => "rejected"
    }
  }

  function ParseJobStatus(s: string): (r: Option<JobStatus>)
    ensures forall e: JobStatus :: r == Some(e) <==> e.Value() == s
  {
    if s == "pending" then Some(JobStatus.Pending)
    else if s == "reviewed" then Some(Reviewed)
    else if s == "applied" then Some(Applied)
    else if s == "rejected" then Some(Rejected)
    else None
  }

  /** The status of a skill recommendation. */
  datatype RecommendationStatus = Pending | InProgress | Completed {
    function Value(): string {
      match this
      case Pending => "pending"
      case InProgress => "in_progress"
      case Completed => "completed"
    }
  }

  function ParseRecommendationStatus(s: string): (r: Option<RecommendationStatus>)
    ensures forall e: RecommendationStatus :: r == Some(e) <==> e.Value() == s
  {
    if s == "pending" then Some(RecommendationStatus.Pending)
    else if s == "in_progress" then Some(InProgress)
    else if s == "completed" then Some(RecommendationStatus.Completed)
    else None
  }

  /** The status of an agent execution and of an MCP tool execution: the
      two enumerations have the same four values. */
  datatype RunStatus = Pending | Running | Completed | Failed {
    function Value(): string {
      match this
      case Pending => "pending"
      case Running => "running"
      case Completed => "completed"
      case Failed => "failed"
    }
  }

  function ParseRunStatus(s: string): (r: Option<RunStatus>)
    ensures forall e: RunStatus :: r == Some(e) <==> e.Value() == s
  {
    if s == "pending" then Some(RunStatus.Pending)
    else if s == "running" then Some(Running)
    else if s == "completed" then Some(RunStatus.Completed)
    else if s == "failed" then Some(Failed)
    else None
  }

  // ---------------------------------------------------------------------
  // Field checks

  datatype ErrorKind = Missing | BelowMinimum | AboveMaximum | TooShort | NotAMember

  /** One validation error: the field and what is wrong with it. */
  datatype FieldError = FieldError(field: string, kind: ErrorKind)

  /** A schema's outcome: the validated object, or every field's error in
      declaration order. */
  datatype Validated<T> = Valid(value: T) | Invalid(errors: seq<FieldError>)

  /** `Field(ge=lo, le=hi)` on an integer. */
  datatype Bounds = Bounds(lo: Option<int>, hi: Option<int>)

  predicate Within(x: int, b: Bounds) {
    (b.lo.None? || b.lo.value <= x) && (b.hi.None? || x <= b.hi.value)
  }

  const NonNegative: Bounds := Bounds(Some(0), None)
  /** The 1 to 5 scale of skill levels and priorities. */
  const Scale: Bounds := Bounds(Some(1), Some(5))

  /** A value is below the minimum, above the maximum, or within. */
  function BoundErrors(field: string, x: int, b: Bounds): (r: seq<FieldError>)
    ensures r == [] <==> Within(x, b)
    ensures r == [] || r == [FieldError(field, BelowMinimum)] || r == [FieldError(field, AboveMaximum)]
  {
    if b.lo.Some? && x < b.lo.value then [FieldError(field, BelowMinimum)]
    else if b.hi.Some? && x > b.hi.value then [FieldError(field, AboveMaximum)]
    else []
  }

  /** A required field must be present. */
  function Required<T>(field: string, x: Option<T>): (r: seq<FieldError>)
    ensures r == [] <==> x.Some?
  {
    if x.None? then [FieldError(field, Missing)] else []
  }

  function RequiredInt(field: string, x: Option<int>, b: Bounds): (r: seq<FieldError>)
    ensures r == [] <==> x.Some? && Within(x.value, b)
  {
    if x.None? then [FieldError(field, Missing)] else BoundErrors(field, x.value, b)
  }

  /** An optional field is checked only when it holds a value. */
  function OptionalInt(field: string, x: Option<int>, b: Bounds): (r: seq<FieldError>)
    ensures r == [] <==> x.None? || Within(x.value, b)
  {
    if x.None? then [] else BoundErrors(field, x.value, b)
  }

  /** `Field(ge=0.0)` and `Field(ge=0.0, le=100.0)` on a float. */
  function RealBoundErrors(field: string, x: real, lo: real, hi: Option<real>): (r: seq<FieldError>)
    ensures r == [] <==> lo <= x && (hi.None? || x <= hi.value)
  {
    if x < lo then [FieldError(field, BelowMinimum)]
    else if hi.Some? && x > hi.value then [FieldError(field, AboveMaximum)]
    else []
  }

  /** An enumeration field: a value outside the set is an error, an absent
      one takes the default. */
  function MemberErrors<E>(field: string, parsed: Option<E>): (r: seq<FieldError>)
    ensures r == [] <==> parsed.Some?
  {
    if parsed.None? then [FieldError(field, NotAMember)] else []
  }

  // ---------------------------------------------------------------------
  // Schemas

  const DefaultCurrency: string := "USD"
  const MinPasswordLength: nat := 8

  /** `UserCreate`; the e-mail address's syntax is not checked here. */
  datatype UserCreate = UserCreate(email: string, name: Option<string>, password: string)

  function ValidateUserCreate(email: Option<string>, name: Option<string>, password: Option<string>)
    : (r: Validated<UserCreate>)
    ensures r.Valid? <==> email.Some? && password.Some? && |password.value| >= MinPasswordLength
    ensures r.Valid? ==> r.value.password == password.value && r.value.name == name
    ensures r.Invalid? ==>
      (FieldError("password", TooShort) in r.errors <==> password.Some? && |password.value| < MinPasswordLength)
  {
    var errors := Required("email", email)
                  + (if password.None? then [FieldError("password", Missing)]
                     else if |password.value| < MinPasswordLength then [FieldError("password", TooShort)]
                     else []);
    if errors == [] then Valid(UserCreate(email.value, name, password.value)) else Invalid(errors)
  }

  /** `UserProfileBase`, its constrained fields. */
  datatype UserProfile = UserProfile(experienceYears: Option<int>, salaryMin: Option<int>, salaryMax: Option<int>,
                                     currency: string)

  function ValidateProfile(experienceYears: Option<int>, salaryMin: Option<int>, salaryMax: Option<int>,
                           currency: Option<string>)
    : (r: Validated<UserProfile>)
    ensures r.Valid? <==>
      && (experienceYears.None? || 0 <= experienceYears.value <= 50)
      && (salaryMin.None? || salaryMin.value >= 0)
      && (salaryMax.None? || salaryMax.value >= 0)
    ensures r.Valid? ==> r.value == UserProfile(experienceYears, salaryMin, salaryMax, currency.GetOr("USD"))
  {
    var errors := OptionalInt("experience_years", experienceYears, Bounds(Some(0), Some(50)))
                  + OptionalInt("salary_min", salaryMin, NonNegative)
                  + OptionalInt("salary_max", salaryMax, NonNegative);
    if errors == [] then Valid(UserProfile(experienceYears, salaryMin, salaryMax, currency.GetOr(DefaultCurrency)))
    else Invalid(errors)
  }

  /** An example: the two salaries are checked separately, so a minimum
      above the maximum is accepted. */
  lemma ProfileSalariesAreNotOrdered()
    ensures ValidateProfile(None, Some(100), Some(1), None).Valid?
  {
  }

  /** `CVSkillBase` */
  datatype CvSkillFields = CvSkillFields(skillId: string, level: int, years: Option<int>)

  function ValidateCvSkill(skillId: Option<string>, level: Option<int>, years: Option<int>)
    : (r: Validated<CvSkillFields>)
    ensures r.Valid? <==> skillId.Some? && level.Some? && 1 <= level.value <= 5 && (years.None? || years.value >= 0)
    ensures r.Valid? ==> r.value == CvSkillFields(skillId.value, level.value, years)
    ensures r.Invalid? ==> forall e :: e in r.errors ==> e.field in {"skill_id", "level", "years"}
  {
    var errors := Required("skill_id", skillId) + RequiredInt("level", level, Scale)
                  + OptionalInt("years", years, NonNegative);
    if errors == [] then Valid(CvSkillFields(skillId.value, level.value, years)) else Invalid(errors)
  }

  /** `JobListingBase`, its required and constrained fields. */
  datatype JobListingFields = JobListingFields(
    title: string, company: string, location: string, description: string,
    salaryMin: Option<int>, salaryMax: Option<int>, currency: string, remote: bool)

  function ValidateJobListing(title: Option<string>, company: Option<string>, location: Option<string>,
                              description: Option<string>, salaryMin: Option<int>, salaryMax: Option<int>,
                              currency: Option<string>, remote: Option<bool>)
    : (r: Validated<JobListingFields>)
    ensures r.Valid? <==>
      && title.Some? && company.Some? && location.Some? && description.Some?
      && (salaryMin.None? || salaryMin.value >= 0) && (salaryMax.None? || salaryMax.value >= 0)
    ensures r.Valid? ==> r.value.currency == currency.GetOr("USD") && r.value.remote == remote.GetOr(false)
  {
    var errors := Required("title", title) + Required("company", company) + Required("location", location)
                  + Required("description", description)
                  + OptionalInt("salary_min", salaryMin, NonNegative)
                  + OptionalInt("salary_max", salaryMax, NonNegative);
    if errors == [] then
      Valid(JobListingFields(title.value, company.value, location.value, description.value, salaryMin, salaryMax,
                             currency.GetOr(DefaultCurrency), remote.GetOr(false)))
    else Invalid(errors)
  }

  /** `JobSkillBase` */
  datatype JobSkillFields = JobSkillFields(skillId: string, required: bool, level: Option<int>)

  function ValidateJobSkill(skillId: Option<string>, required: Option<bool>, level: Option<int>)
    : (r: Validated<JobSkillFields>)
    ensures r.Valid? <==> skillId.Some? && (level.None? || 1 <= level.value <= 5)
    ensures r.Valid? ==> r.value == JobSkillFields(skillId.value, required.GetOr(true), level)
  {
    var errors := Required("skill_id", skillId) + OptionalInt("level", level, Scale);
    if errors == [] then Valid(JobSkillFields(skillId.value, required.GetOr(true), level)) else Invalid(errors)
  }

  /** `JobSearchBase`, its required and constrained fields. */
  datatype JobSearchFields = JobSearchFields(keywords: string, salaryMin: Option<int>, salaryMax: Option<int>,
                                             remote: bool)

  function ValidateJobSearch(keywords: Option<string>, salaryMin: Option<int>, salaryMax: Option<int>,
                             remote: Option<bool>)
    : (r: Validated<JobSearchFields>)
    ensures r.Valid? <==> keywords.Some? && (salaryMin.None? || salaryMin.value >= 0)
                          && (salaryMax.None? || salaryMax.value >= 0)
    ensures r.Valid? ==> r.value == JobSearchFields(keywords.value, salaryMin, salaryMax, remote.GetOr(false))
  {
    var errors := Required("keywords", keywords) + OptionalInt("salary_min", salaryMin, NonNegative)
                  + OptionalInt("salary_max", salaryMax, NonNegative);
    if errors == [] then Valid(JobSearchFields(keywords.value, salaryMin, salaryMax, remote.GetOr(false)))
    else Invalid(errors)
  }

  /** `JobMatchBase`, its constrained fields. */
  datatype JobMatchFields = JobMatchFields(matchScore: real, status: JobStatus)

  function ValidateJobMatch(matchScore: Option<real>, status: Option<string>): (r: Validated<JobMatchFields>)
    ensures r.Valid? <==> matchScore.Some? && 0.0 <= matchScore.value <= 100.0
                          && (status.None? || ParseJobStatus(status.value).Some?)
    ensures r.Valid? && status.None? ==> r.value.status == JobStatus.Pending
    ensures r.Valid? && status.Some? ==> r.value.status.Value() == status.value
  {
    var st := if status.None? then Some(JobStatus.Pending) else ParseJobStatus(status.value);
    var errors := (if matchScore.None? then [FieldError("match_score", Missing)]
                   else RealBoundErrors("match_score", matchScore.value, 0.0, Some(100.0)))
                  + MemberErrors("status", st);
    if errors == [] then Valid(JobMatchFields(matchScore.value, st.value)) else Invalid(errors)
  }

  /** `SkillRecommendationBase`, its constrained fields. */
  datatype RecommendationFields = RecommendationFields(priority: int, reason: string, targetLevel: int,
                                                       status: RecommendationStatus)

  function ValidateRecommendation(priority: Option<int>, reason: Option<string>, targetLevel: Option<int>,
                                  status: Option<string>)
    : (r: Validated<RecommendationFields>)
    ensures r.Valid? <==>
      && priority.Some? && 1 <= priority.value <= 5 && reason.Some?
      && targetLevel.Some? && 1 <= targetLevel.value <= 5
      && (status.None? || ParseRecommendationStatus(status.value).Some?)
    ensures r.Valid? && status.None? ==> r.value.status == RecommendationStatus.Pending
    ensures r.Valid? ==> r.value.priority == priority.value && r.value.targetLevel == targetLevel.value
  {
    var st := if status.None? then Some(RecommendationStatus.Pending) else ParseRecommendationStatus(status.value);
    var errors := RequiredInt("priority", priority, Scale) + Required("reason", reason)
                  + RequiredInt("target_level", targetLevel, Scale) + MemberErrors("status", st);
    if errors == [] then Valid(RecommendationFields(priority.value, reason.value, targetLevel.value, st.value))
    else Invalid(errors)
  }

  /** `AgentExecutionBase` and `MCPToolExecutionBase`: a name, a required
      object, an optional non-negative duration and a run status. */
  datatype ExecutionFields = ExecutionFields(name: string, input: JsonObject, executionTime: Option<real>,
                                             status: RunStatus)

  /** `nameField` is `agent_type` or `tool_name`, `inputField` is
      `input_data` or `parameters`. */
  function ValidateExecution(nameField: string, inputField: string, name: Option<string>, input: Option<JsonObject>,
                             executionTime: Option<real>, status: Option<string>)
    : (r: Validated<ExecutionFields>)
    ensures r.Valid? <==> name.Some? && input.Some? && (executionTime.None? || executionTime.value >= 0.0)
                          && (status.None? || ParseRunStatus(status.value).Some?)
    ensures r.Valid? && status.None? ==> r.value.status == RunStatus.Pending
    ensures r.Valid? ==> r.value.executionTime == executionTime
  {
    var st := if status.None? then Some(RunStatus.Pending) else ParseRunStatus(status.value);
    var errors := Required(nameField, name) + Required(inputField, input)
                  + (if executionTime.None? then [] else RealBoundErrors("execution_time", executionTime.value, 0.0, None))
                  + MemberErrors("status", st);
    if errors == [] then Valid(ExecutionFields(name.value, input.value, executionTime, st.value))
    else Invalid(errors)
  }

  // ---------------------------------------------------------------------
  // Stored statuses

  /** Every stored match has a status of the `JobStatus` set. */
  ghost predicate MatchStatusesValid(matches: seq<JobMatch>) {
    forall i :: 0 <= i < |matches| ==> ParseJobStatus(matches[i].status).Some?
  }

  /** Saving a match from the matching task keeps every stored status a
      member of the set: a new match starts pending, an updated one keeps
      its status, and a refused insert changes nothing. */
  lemma SaveJobMatchKeepsStatusesValid(matches: seq<JobMatch>, userId: string, cvId: string, jobId: string,
                                       score: Json, analysis: JsonObject, now: string,
                                       ids: NewIds<(string, string, string)>)
    requires MatchStatusesValid(matches)
    ensures var r := Tasks.SaveJobMatch(matches, userId, cvId, jobId, score, analysis, now, ids);
      r.Ok? ==> MatchStatusesValid(r.value.table)
  {
    var r := Tasks.SaveJobMatch(matches, userId, cvId, jobId, score, analysis, now, ids);
    if Tasks.HasMatch(matches, (userId, cvId, jobId)) {
      var i :| 0 <= i < |matches| && Tasks.MatchKey(matches[i]) == (userId, cvId, jobId)
               && r.value.table == matches[i := r.value.row] && r.value.row.id == matches[i].id
               && r.value.row.status == matches[i].status;
      assert forall k :: 0 <= k < |r.value.table| ==> r.value.table[k].status == matches[k].status;
    } else if r.Ok? {
      assert ParseJobStatus("pending") == Some(JobStatus.Pending);
      assert forall k :: 0 <= k < |matches| ==> r.value.table[k] == matches[k];
    }
  }
}
