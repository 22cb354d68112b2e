/** The background tasks: CV processing, job search, matching, recommendation
    generation, CV clean-up and the periodic listing refresh, together with
    the helpers that save listings, matches and recommendations. Each task
    is a function from the database to the database after it and what the
    task returned or raised; every save commits on its own, so rows saved
    before an exception stay saved. */
module Tasks {
  import opened Common
  import opened Store
  import Mcp
  import AiService
  import AgentGraph

  /** `datetime.fromisoformat`: seconds since the epoch, or the exception
      it raises on a malformed timestamp. */
  type IsoParser = string -> Outcome<int>

  /** A run of saves: the table after it, the rows the saves returned, and
      the exception that stopped it, if one did. */
  datatype Progress<T> = Progress(table: seq<T>, rows: seq<T>, failure: Option<string>)

  /** The database after a task, and what the task returned or raised. */
  datatype TaskRun<R> = TaskRun(db: Db, result: Outcome<R>)

  // ---------------------------------------------------------------------
  // Saving job listings

  function ExternalId(l: JobListing): string {
    l.externalId
  }

  /** Some listing in `jobs` has external id `id`. */
  predicate Listed(jobs: seq<JobListing>, id: string) {
    exists i :: 0 <= i < |jobs| && jobs[i].externalId == id
  }

  /** `_save_job_to_db`: a listing whose external id is already stored is
      returned as it is; otherwise a new active listing is built, with no
      requirements and the posting time parsed from the board's timestamp,
      and inserted under the id `ids` gives it, if any. */
  function SaveJob(jobs: seq<JobListing>, job: Mcp.Job, ids: NewIds<string>, parseTime: IsoParser)
    : (r: Outcome<Saved<JobListing>>)
    ensures r.Ok? ==> r.value.row.externalId == job.id && r.value.row in r.value.table
    ensures Listed(jobs, job.id) ==> r.Ok? && r.value.table == jobs
    ensures !Listed(jobs, job.id) && parseTime(job.postedAt).Raise? ==> r == Raise(parseTime(job.postedAt).msg)
    ensures !Listed(jobs, job.id) && parseTime(job.postedAt).Ok? && ids.Unassigned? ==> r == Raise(ids.dbError)
    ensures !Listed(jobs, job.id) && parseTime(job.postedAt).Ok? && ids.Assigned? ==>
      && r.Ok? && r.value.table == jobs + [r.value.row]
      && r.value.row.id == ids.idOf(job.id)
      && r.value.row.title == job.title && r.value.row.url == job.url && r.value.row.source == job.source
      && r.value.row.requirements == ""
      && r.value.row.postedAt == parseTime(job.postedAt).value
      && r.value.row.isActive
  {
    match FirstWhere(jobs, (l: JobListing) => l.externalId == job.id)
    case Some(i) => Ok(Saved(jobs, jobs[i]))
    case None =>
      match parseTime(job.postedAt)
      case Raise(m) => Raise(m)
      case Ok(t) =>
        match ids
        case Unassigned(e) => Raise(e)
        case Assigned(idOf) =>
          var row := JobListing(idOf(job.id), job.id, job.title, job.company, job.location,
                                job.description, "", job.url, job.source, t, true);
          Ok(Saved(jobs + [row], row))
  }

  /** Saving never gives two listings the same external id. */
  lemma SaveJobKeepsExternalIdsUnique(jobs: seq<JobListing>, job: Mcp.Job, ids: NewIds<string>, parseTime: IsoParser)
    requires UniqueBy(jobs, ExternalId)
    ensures var r := SaveJob(jobs, job, ids, parseTime);
            r.Ok? ==> UniqueBy(r.value.table, ExternalId)
  {
    var r := SaveJob(jobs, job, ids, parseTime);
    if r.Ok? && !Listed(jobs, job.id) {
      AppendKeepsUnique(jobs, r.value.row, ExternalId);
    }
  }

  /** Saving a job a second time returns the row the first save returned
      and changes nothing, whatever the second save's ids and timestamp
      parser. */
  lemma SaveJobIdempotent(jobs: seq<JobListing>, job: Mcp.Job, ids: NewIds<string>, parseTime: IsoParser,
                          ids2: NewIds<string>, parseTime2: IsoParser)
    requires SaveJob(jobs, job, ids, parseTime).Ok?
    ensures var s := SaveJob(jobs, job, ids, parseTime).value;
            SaveJob(s.table, job, ids2, parseTime2) == Ok(s)
  {
    var s := SaveJob(jobs, job, ids, parseTime).value;
    var p := (l: JobListing) => l.externalId == job.id;
    if !Listed(jobs, job.id) {
      assert s.table[|jobs|] == s.row;
      assert forall k :: 0 <= k < |jobs| ==> s.table[k] == jobs[k];
      assert FirstWhere(s.table, p) == Some(|jobs|);
    }
  }

  /** `for job_data in jobs: _save_job_to_db(job_data)`, stopping at the
      first exception: a timestamp that does not parse, or a new listing
      the database refuses. */
  function SaveJobs(jobs: seq<JobListing>, list: seq<Mcp.Job>, ids: NewIds<string>, parseTime: IsoParser)
    : (r: Progress<JobListing>)
    ensures jobs <= r.table
    ensures |r.rows| <= |list|
    ensures r.failure.None? <==> |r.rows| == |list|
    ensures r.failure.Some? ==>
      var next := list[|r.rows|];
      && !Listed(r.table, next.id)
      && (parseTime(next.postedAt).Raise? ==> r.failure.value == parseTime(next.postedAt).msg)
      && (parseTime(next.postedAt).Ok? ==> ids == Unassigned(r.failure.value))
    ensures forall i :: 0 <= i < |r.rows| ==> r.rows[i].externalId == list[i].id && r.rows[i] in r.table
    decreases |list|
  {
    if |list| == 0 then Progress(jobs, [], None)
    else
      match SaveJob(jobs, list[0], ids, parseTime)
      case Raise(m) => Progress(jobs, [], Some(m))
      case Ok(s) =>
        var rest := SaveJobs(s.table, list[1..], ids, parseTime);
        Progress(rest.table, [s.row] + rest.rows, rest.failure)
  }

  lemma {:induction false} SaveJobsKeepsExternalIdsUnique(jobs: seq<JobListing>, list: seq<Mcp.Job>,
                                                          ids: NewIds<string>, parseTime: IsoParser)
    requires UniqueBy(jobs, ExternalId)
    ensures UniqueBy(SaveJobs(jobs, list, ids, parseTime).table, ExternalId)
    decreases |list|
  {
    if |list| > 0 {
      SaveJobKeepsExternalIdsUnique(jobs, list[0], ids, parseTime);
      var r := SaveJob(jobs, list[0], ids, parseTime);
      if r.Ok? {
        SaveJobsKeepsExternalIdsUnique(r.value.table, list[1..], ids, parseTime);
      }
    }
  }

  /** Jobs whose external ids are all stored already are saved without
      touching the table. */
  lemma {:induction false} SaveJobsOfListedJobs(jobs: seq<JobListing>, list: seq<Mcp.Job>,
                                                ids: NewIds<string>, parseTime: IsoParser)
    requires forall i :: 0 <= i < |list| ==> Listed(jobs, list[i].id)
    ensures SaveJobs(jobs, list, ids, parseTime).table == jobs
    ensures SaveJobs(jobs, list, ids, parseTime).failure.None?
    decreases |list|
  {
    if |list| > 0 {
      assert Listed(jobs, list[0].id);
      SaveJobsOfListedJobs(jobs, list[1..], ids, parseTime);
    }
  }

  /** Saving the same jobs again adds nothing and cannot fail. */
  lemma SaveJobsAgainChangesNothing(jobs: seq<JobListing>, list: seq<Mcp.Job>, ids: NewIds<string>,
                                    parseTime: IsoParser, ids2: NewIds<string>, parseTime2: IsoParser)
    requires SaveJobs(jobs, list, ids, parseTime).failure.None?
    ensures var t := SaveJobs(jobs, list, ids, parseTime).table;
            SaveJobs(t, list, ids2, parseTime2).table == t && SaveJobs(t, list, ids2, parseTime2).failure.None?
  {
    var p := SaveJobs(jobs, list, ids, parseTime);
    forall i | 0 <= i < |list|
      ensures Listed(p.table, list[i].id)
    {
      var k :| 0 <= k < |p.table| && p.table[k] == p.rows[i];
    }
    SaveJobsOfListedJobs(p.table, list, ids2, parseTime2);
  }

  /** As written no new listing gets an id, so saving never adds a row: it
      succeeds exactly when every job is already stored, and otherwise
      raises at the first new one. */
  lemma {:induction false} AsWrittenSaveJobsAddNothing(jobs: seq<JobListing>, list: seq<Mcp.Job>, dbError: string,
                                                       parseTime: IsoParser)
    ensures var r := SaveJobs(jobs, list, Unassigned(dbError), parseTime);
      && r.table == jobs
      && (r.failure.None? <==> forall i :: 0 <= i < |list| ==> Listed(jobs, list[i].id))
    decreases |list|
  {
    if |list| > 0 {
      AsWrittenSaveJobsAddNothing(jobs, list[1..], dbError, parseTime);
      if Listed(jobs, list[0].id) {
        assert forall i :: 1 <= i < |list| ==> list[i] == list[1..][i - 1];
      }
    }
  }

  // ---------------------------------------------------------------------
  // Saving matches

  function MatchKey(m: JobMatch): (string, string, string) {
    (m.userId, m.cvId, m.jobId)
  }

  /** Some match in `matches` has key `key`. */
  predicate HasMatch(matches: seq<JobMatch>, key: (string, string, string)) {
    exists i :: 0 <= i < |matches| && MatchKey(matches[i]) == key
  }

  /** `_save_job_match`: the match for (user, CV, job) takes the new score
      and analysis and the save time; a new one starts out "pending" and is
      inserted under the id `ids` gives it, if any. */
  function SaveJobMatch(matches: seq<JobMatch>, userId: string, cvId: string, jobId: string, score: Json,
                        analysis: JsonObject, now: string, ids: NewIds<(string, string, string)>)
    : (r: Outcome<Saved<JobMatch>>)
    ensures r.Ok? ==>
      && MatchKey(r.value.row) == (userId, cvId, jobId)
      && r.value.row.matchScore == score && r.value.row.analysis == analysis && r.value.row.updatedAt == now
      && r.value.row in r.value.table
    ensures HasMatch(matches, (userId, cvId, jobId)) ==>
      && r.Ok?
      && exists i :: 0 <= i < |matches| && MatchKey(matches[i]) == (userId, cvId, jobId)
                     && r.value.table == matches[i := r.value.row]
                     && r.value.row.id == matches[i].id && r.value.row.status == matches[i].status
    ensures !HasMatch(matches, (userId, cvId, jobId)) && ids.Unassigned? ==> r == Raise(ids.dbError)
    ensures !HasMatch(matches, (userId, cvId, jobId)) && ids.Assigned? ==>
      && r.Ok? && r.value.table == matches + [r.value.row] && r.value.row.status == "pending"
      && r.value.row.id == ids.idOf((userId, cvId, jobId))
  {
    var key := (userId, cvId, jobId);
    match FirstWhere(matches, (m: JobMatch) => MatchKey(m) == key)
    case Some(i) =>
      var row := matches[i].(matchScore := score, analysis := analysis, updatedAt := now);
      assert matches[i := row][i] == row;
      Ok(Saved(matches[i := row], row))
    case None =>
      match ids
      case Unassigned(e) => Raise(e)
      case Assigned(idOf) =>
        var row := JobMatch(idOf(key), userId, cvId, jobId, score, analysis, "pending", now);
        Ok(Saved(matches + [row], row))
  }

  /** Saving a match keeps one match per (user, CV, job). */
  lemma SaveJobMatchKeepsKeysUnique(matches: seq<JobMatch>, userId: string, cvId: string, jobId: string, score: Json,
                                    analysis: JsonObject, now: string, ids: NewIds<(string, string, string)>)
    ensures var r := SaveJobMatch(matches, userId, cvId, jobId, score, analysis, now, ids);
            UniqueBy(matches, MatchKey) && r.Ok? ==> UniqueBy(r.value.table, MatchKey)
  {
    var r := SaveJobMatch(matches, userId, cvId, jobId, score, analysis, now, ids);
    if UniqueBy(matches, MatchKey) && r.Ok? {
      if HasMatch(matches, (userId, cvId, jobId)) {
        var i :| 0 <= i < |matches| && MatchKey(matches[i]) == (userId, cvId, jobId)
                 && r.value.table == matches[i := r.value.row];
        ReplaceKeepsUnique(matches, i, r.value.row, MatchKey);
      } else {
        AppendKeepsUnique(matches, r.value.row, MatchKey);
      }
    }
  }

  /** Saving the same match twice leaves one row for it, holding the
      second score and analysis under the first save's id and status; the
      second save needs no new id. */
  lemma SaveJobMatchTwice(matches: seq<JobMatch>, userId: string, cvId: string, jobId: string,
                          score1: Json, analysis1: JsonObject, now1: string,
                          score2: Json, analysis2: JsonObject, now2: string,
                          ids: NewIds<(string, string, string)>, ids2: NewIds<(string, string, string)>)
    ensures var s1 := SaveJobMatch(matches, userId, cvId, jobId, score1, analysis1, now1, ids);
            s1.Ok? ==>
              var s2 := SaveJobMatch(s1.value.table, userId, cvId, jobId, score2, analysis2, now2, ids2);
              && s2.Ok?
              && |s2.value.table| == |s1.value.table|
              && s2.value.row == s1.value.row.(matchScore := score2, analysis := analysis2, updatedAt := now2)
  {
    var key := (userId, cvId, jobId);
    var s1 := SaveJobMatch(matches, userId, cvId, jobId, score1, analysis1, now1, ids);
    if s1.Ok? {
      var t := s1.value.table;
      var p := (m: JobMatch) => MatchKey(m) == key;
      var j := FirstWhere(t, p);
      assert HasMatch(t, key);
      match FirstWhere(matches, p)
      case Some(i) =>
        assert t == matches[i := s1.value.row] && t[i] == s1.value.row;
        assert forall k :: 0 <= k < i ==> t[k] == matches[k];
        assert j == Some(i);
      case None =>
        assert forall k :: 0 <= k < |matches| ==> t[k] == matches[k];
        assert j == Some(|matches|);
    }
  }

  /** Saving each of a run's matches for one user and CV, stopping at the
      first new match the database refuses. */
  function SaveMatches(matches: seq<JobMatch>, userId: string, cvId: string, entries: seq<AgentGraph.MatchEntry>,
                       now: string, ids: NewIds<(string, string, string)>)
    : (r: Progress<JobMatch>)
    ensures |r.rows| <= |entries|
    ensures r.failure.None? <==> |r.rows| == |entries|
    ensures r.failure.Some? ==>
      && ids == Unassigned(r.failure.value)
      && !HasMatch(r.table, (userId, cvId, entries[|r.rows|].jobId))
    ensures forall i :: 0 <= i < |r.rows| ==>
      MatchKey(r.rows[i]) == (userId, cvId, entries[i].jobId) && r.rows[i].matchScore == entries[i].matchScore
    ensures entries == [] ==> r.table == matches
    ensures forall k :: HasMatch(matches, k) ==> HasMatch(r.table, k)
    ensures forall i :: 0 <= i < |r.rows| ==> HasMatch(r.table, MatchKey(r.rows[i]))
    decreases |entries|
  {
    if |entries| == 0 then Progress(matches, [], None)
    else
      var e := entries[0];
      match SaveJobMatch(matches, userId, cvId, e.jobId, e.matchScore, e.analysis, now, ids)
      case Raise(m) => Progress(matches, [], Some(m))
      case Ok(s) =>
        SaveJobMatchKeepsKeys(matches, userId, cvId, e.jobId, e.matchScore, e.analysis, now, ids);
        var rest := SaveMatches(s.table, userId, cvId, entries[1..], now, ids);
        Progress(rest.table, [s.row] + rest.rows, rest.failure)
  }

  /** Saving one match removes no key and leaves the saved row's key in the
      table. */
  lemma SaveJobMatchKeepsKeys(matches: seq<JobMatch>, userId: string, cvId: string, jobId: string, score: Json,
                              analysis: JsonObject, now: string, ids: NewIds<(string, string, string)>)
    requires SaveJobMatch(matches, userId, cvId, jobId, score, analysis, now, ids).Ok?
    ensures var s := SaveJobMatch(matches, userId, cvId, jobId, score, analysis, now, ids).value;
      && HasMatch(s.table, (userId, cvId, jobId))
      && forall k :: HasMatch(matches, k) ==> HasMatch(s.table, k)
  {
    var s := SaveJobMatch(matches, userId, cvId, jobId, score, analysis, now, ids).value;
    var j :| 0 <= j < |s.table| && s.table[j] == s.row;
    forall k | HasMatch(matches, k)
      ensures HasMatch(s.table, k)
    {
      var i :| 0 <= i < |matches| && MatchKey(matches[i]) == k;
      assert MatchKey(s.table[i]) == k;
    }
  }

  /** Saving a run's matches keeps (user, CV, job) keys unique. */
  lemma {:induction false} SaveMatchesKeepsKeysUnique(matches: seq<JobMatch>, userId: string, cvId: string,
                                                      entries: seq<AgentGraph.MatchEntry>, now: string,
                                                      ids: NewIds<(string, string, string)>)
    requires UniqueBy(matches, MatchKey)
    ensures UniqueBy(SaveMatches(matches, userId, cvId, entries, now, ids).table, MatchKey)
    decreases |entries|
  {
    if |entries| > 0 {
      var e := entries[0];
      SaveJobMatchKeepsKeysUnique(matches, userId, cvId, e.jobId, e.matchScore, e.analysis, now, ids);
      var s1 := SaveJobMatch(matches, userId, cvId, e.jobId, e.matchScore, e.analysis, now, ids);
      if s1.Ok? {
        SaveMatchesKeepsKeysUnique(s1.value.table, userId, cvId, entries[1..], now, ids);
      }
    }
  }

  // ---------------------------------------------------------------------
  // Saving recommendations

  function SkillName(s: Skill): string {
    s.name
  }

  function RecommendationKey(r: Recommendation): (string, string) {
    (r.userId, r.skillId)
  }

  /** Some skill in `skills` is named `name`. */
  predicate Known(skills: seq<Skill>, name: string) {
    exists i :: 0 <= i < |skills| && skills[i].name == name
  }

  /** The skill lookup `_save_skill_recommendation` starts with: the skill
      named by the lower-cased name, created as a technical skill when
      missing, under the id `ids` gives it, if any. */
  function FindOrCreateSkill(skills: seq<Skill>, skillName: string, ids: NewIds<string>): (r: Outcome<Saved<Skill>>)
    ensures r.Ok? ==> r.value.row.name == Lower(skillName) && r.value.row in r.value.table
    ensures Known(skills, Lower(skillName)) ==> r.Ok? && r.value.table == skills
    ensures !Known(skills, Lower(skillName)) && ids.Unassigned? ==> r == Raise(ids.dbError)
    ensures !Known(skills, Lower(skillName)) && ids.Assigned? ==>
      && r.Ok?
      && r.value.table == skills + [r.value.row]
      && r.value.row.id == ids.idOf(Lower(skillName))
      && r.value.row.category == JStr("Technical")
      && r.value.row.description == "Skill: " + skillName
  {
    var name := Lower(skillName);
    match FirstWhere(skills, (s: Skill) => s.name == name)
    case Some(i) => Ok(Saved(skills, skills[i]))
    case None =>
      match ids
      case Unassigned(e) => Raise(e)
      case Assigned(idOf) =>
        var row := Skill(idOf(name), name, JStr("Technical"), "Skill: " + skillName);
        Ok(Saved(skills + [row], row))
  }

  /** The two tables after a recommendation save, and the saved row or the
      exception that stopped the save. A skill created before the failure
      stays committed. */
  datatype RecommendationSaved = RecommendationSaved(skills: seq<Skill>, recommendations: seq<Recommendation>,
                                                     row: Outcome<Recommendation>)

  /** `_save_skill_recommendation`: one recommendation per (user, skill),
      updated in place when it exists, new ones "pending". */
  function SaveSkillRecommendation(skills: seq<Skill>, recs: seq<Recommendation>, userId: string, skillName: string,
                                   priority: Json, reason: Json, resources: Json, targetLevel: Json, now: string,
                                   skillIds: NewIds<string>, recIds: NewIds<(string, string)>)
    : (r: RecommendationSaved)
    ensures skills <= r.skills && |r.skills| <= |skills| + 1
    ensures FindOrCreateSkill(skills, skillName, skillIds).Raise? ==>
      r == RecommendationSaved(skills, recs, Raise(skillIds.dbError))
    ensures r.row.Raise? ==> r.recommendations == recs
                             && (skillIds == Unassigned(r.row.msg) || recIds == Unassigned(r.row.msg))
    ensures skillIds.Assigned? && recIds.Assigned? ==> r.row.Ok?
    ensures r.row.Ok? ==>
      && r.row.value in r.recommendations
      && r.row.value.userId == userId && Known(r.skills, Lower(skillName))
      && r.row.value.priority == priority && r.row.value.reason == reason && r.row.value.resources == resources
      && r.row.value.targetLevel == targetLevel && r.row.value.updatedAt == now
      && (|r.recommendations| == |recs| || (r.recommendations == recs + [r.row.value] && r.row.value.status == "pending"))
  {
    match FindOrCreateSkill(skills, skillName, skillIds)
    case Raise(m) => RecommendationSaved(skills, recs, Raise(m))
    case Ok(skill) =>
      var key := (userId, skill.row.id);
      match FirstWhere(recs, (x: Recommendation) => RecommendationKey(x) == key)
      case Some(i) =>
        var row := recs[i].(priority := priority, reason := reason, resources := resources,
                            targetLevel := targetLevel, updatedAt := now);
        assert recs[i := row][i] == row;
        RecommendationSaved(skill.table, recs[i := row], Ok(row))
      case None =>
        match recIds
        case Unassigned(e) => RecommendationSaved(skill.table, recs, Raise(e))
        case Assigned(idOf) =>
          var row := Recommendation(idOf(key), userId, skill.row.id, priority, reason, resources, targetLevel,
                                    "pending", now);
          RecommendationSaved(skill.table, recs + [row], Ok(row))
  }

  /** Saving a recommendation keeps skill names unique and keeps one
      recommendation per (user, skill). */
  lemma SaveSkillRecommendationKeepsKeysUnique(skills: seq<Skill>, recs: seq<Recommendation>, userId: string,
                                               skillName: string, priority: Json, reason: Json, resources: Json,
                                               targetLevel: Json, now: string, skillIds: NewIds<string>,
                                               recIds: NewIds<(string, string)>)
    requires UniqueBy(skills, SkillName) && UniqueBy(recs, RecommendationKey)
    ensures var r := SaveSkillRecommendation(skills, recs, userId, skillName, priority, reason, resources,
                                             targetLevel, now, skillIds, recIds);
            UniqueBy(r.skills, SkillName) && UniqueBy(r.recommendations, RecommendationKey)
  {
    var r := SaveSkillRecommendation(skills, recs, userId, skillName, priority, reason, resources, targetLevel, now,
                                     skillIds, recIds);
    match FindOrCreateSkill(skills, skillName, skillIds)
    case Raise(_) =>
    case Ok(skill) =>
      assert r.skills == skill.table;
      if !Known(skills, Lower(skillName)) {
        AppendKeepsUnique(skills, skill.row, SkillName);
      }
      if r.row.Ok? {
        var key := (userId, skill.row.id);
        match FirstWhere(recs, (x: Recommendation) => RecommendationKey(x) == key)
        case Some(i) =>
          var row := recs[i].(priority := priority, reason := reason, resources := resources,
                              targetLevel := targetLevel, updatedAt := now);
          assert r.recommendations == recs[i := row];
          ReplaceKeepsUnique(recs, i, row, RecommendationKey);
        case None =>
          assert r.recommendations == recs + [r.row.value];
          AppendKeepsUnique(recs, r.row.value, RecommendationKey);
      }
  }

  /** The keyword arguments the task reads from one recommendation, in the
      order Python evaluates them. */
  datatype RecommendationFields = RecommendationFields(skill: string, priority: Json, reason: Json,
                                                       resources: Json, targetLevel: Json)

  /** Reading `rec_data["skill"]`, `["priority"]`, `["reason"]`,
      `.get("resources", [])` and `["target_level"]`, then lower-casing the
      skill name, which must be a string. */
  function ReadRecommendation(rec: JsonObject): (r: Outcome<RecommendationFields>)
    ensures r.Ok? <==> "skill" in rec && "priority" in rec && "reason" in rec && "target_level" in rec
                       && rec["skill"].JStr?
    ensures r.Ok? ==> r.value.skill == rec["skill"].s && r.value.priority == rec["priority"]
                      && r.value.resources == Get(rec, "resources", JArr([]))
    ensures "skill" !in rec ==> r == Raise(KeyErrorText("skill"))
  {
    if "skill" !in rec then Raise(KeyErrorText("skill"))
    else if "priority" !in rec then Raise(KeyErrorText("priority"))
    else if "reason" !in rec then Raise(KeyErrorText("reason"))
    else if "target_level" !in rec then Raise(KeyErrorText("target_level"))
    else if !rec["skill"].JStr? then Raise("'" + TypeName(rec["skill"]) + "' object has no attribute 'lower'")
    else Ok(RecommendationFields(rec["skill"].s, rec["priority"], rec["reason"],
                                 Get(rec, "resources", JArr([])), rec["target_level"]))
  }

  /** The two tables a recommendation save writes. */
  datatype SkillTables = SkillTables(skills: seq<Skill>, recommendations: seq<Recommendation>)

  /** Saving each recommendation of a run, stopping at the first one that
      cannot be read or that the database refuses; returns the tables, how
      many were saved, and the exception that stopped the loop, if any. */
  function SaveRecommendations(t: SkillTables, userId: string, recs: seq<JsonObject>, now: string,
                               skillIds: NewIds<string>, recIds: NewIds<(string, string)>)
    : (r: (SkillTables, nat, Option<string>))
    ensures r.1 <= |recs|
    ensures r.2.None? <==> r.1 == |recs|
    ensures r.2.Some? ==>
      || ReadRecommendation(recs[r.1]) == Raise(r.2.value)
      || (ReadRecommendation(recs[r.1]).Ok? && (skillIds == Unassigned(r.2.value) || recIds == Unassigned(r.2.value)))
    ensures skillIds.Assigned? && recIds.Assigned? && r.2.Some? ==> ReadRecommendation(recs[r.1]).Raise?
    ensures forall i :: 0 <= i < r.1 ==> ReadRecommendation(recs[i]).Ok?
    ensures t.skills <= r.0.skills
    ensures recs == [] ==> r.0 == t
    decreases |recs|
  {
    if |recs| == 0 then (t, 0, None)
    else
      match ReadRecommendation(recs[0])
      case Raise(m) => (t, 0, Some(m))
      case Ok(f) =>
        var s := SaveSkillRecommendation(t.skills, t.recommendations, userId, f.skill, f.priority, f.reason,
                                         f.resources, f.targetLevel, now, skillIds, recIds);
        var t' := SkillTables(s.skills, s.recommendations);
        if s.row.Raise? then (t', 0, Some(s.row.msg))
        else
          var rest := SaveRecommendations(t', userId, recs[1..], now, skillIds, recIds);
          (rest.0, rest.1 + 1, rest.2)
  }

  // ---------------------------------------------------------------------
  // Queries

  /** `_get_user_active_cvs` */
  function ActiveCvs(cvs: seq<Cv>, userId: string): (r: seq<Cv>)
    ensures forall i :: 0 <= i < |r| ==> r[i] in cvs && r[i].userId == userId && r[i].isActive
    ensures forall i :: 0 <= i < |cvs| && cvs[i].userId == userId && cvs[i].isActive ==> cvs[i] in r
  {
    Filter(cvs, (c: Cv) => c.userId == userId && c.isActive)
  }

  /** The listings `_get_relevant_jobs_for_cv` considers: active and
      posted within the last 30 days. */
  predicate Recent(job: JobListing, now: int) {
    job.isActive && job.postedAt >= now - 30 * Day
  }

  /** `_get_relevant_jobs_for_cv`: at most 50 recent listings, in table
      order; the CV itself plays no part. */
  function RelevantJobs(jobs: seq<JobListing>, now: int): (r: seq<JobListing>)
    ensures |r| <= 50
    ensures forall i :: 0 <= i < |r| ==> r[i] in jobs && Recent(r[i], now)
    ensures |Filter(jobs, (j: JobListing) => Recent(j, now))| <= 50 ==>
      forall i :: 0 <= i < |jobs| && Recent(jobs[i], now) ==> jobs[i] in r
  {
    Prefix(Filter(jobs, (j: JobListing) => Recent(j, now)), 50)
  }

  // ---------------------------------------------------------------------
  // process_cv

  /** What `_extract_cv_text` returns for every file. */
  const ExtractedTextPlaceholder: string := "Sample CV text"

  datatype ProcessReport = ProcessReport(cvId: string, skillsExtracted: nat)

  /** A `trigger_cv_matching.delay(cv_id, user_id)` call. */
  datatype CvMatchingRequest = CvMatchingRequest(cvId: string, userId: string)

  /** The CV processing task's effect: the CVs after it, the processing
      statuses it committed in order, the matching it queued, and its
      result. */
  datatype ProcessRun = ProcessRun(cvs: seq<Cv>, statuses: seq<string>, queued: seq<CvMatchingRequest>,
                                   result: Outcome<ProcessReport>)

  /** `cv.parsed_data or {}` finds nothing there: `None` or an empty dict. */
  predicate NoParsedData(p: Option<JsonObject>) {
    p.None? || p.value == map[]
  }

  /** The parsed data the failure handler builds in a fresh dict. */
  function FailureRecord(failedAt: string, message: string): JsonObject {
    map["processing_status" := JStr("failed"),
        "processing_failed_at" := JStr(failedAt),
        "processing_error" := JStr(message)]
  }

  /** `parsed_data` is a plain JSON column: the session sees a new value
      assigned to it, not a change made inside the dict it holds. So the
      handler's write reaches the table only when the first CV with the id
      has no parsed data, and `cv.parsed_data or {}` puts a fresh dict
      there; otherwise the same dict is assigned back and changed in place,
      and the commit writes nothing. */
  predicate FailureMarkSaved(cvs: seq<Cv>, cvId: string) {
    match FirstWhere(cvs, (c: Cv) => c.id == cvId)
    case None => false
    case Some(j) => NoParsedData(cvs[j].parsedData)
  }

  /** The failure handler: the first CV with the id, whoever owns it, is
      marked failed when the mark is saved, and nothing changes otherwise. */
  function MarkFailed(cvs: seq<Cv>, cvId: string, failedAt: string, message: string): (r: seq<Cv>)
    ensures |r| == |cvs|
    ensures r != cvs <==> FailureMarkSaved(cvs, cvId)
    ensures forall i :: 0 <= i < |cvs| && r[i] != cvs[i] ==>
      && cvs[i].id == cvId && NoParsedData(cvs[i].parsedData)
      && (forall k :: 0 <= k < i ==> cvs[k].id != cvId)
      && r[i] == cvs[i].(parsedData := Some(FailureRecord(failedAt, message)))
    ensures forall i :: 0 <= i < |cvs| && cvs[i].id == cvId && NoParsedData(cvs[i].parsedData)
                        && (forall k :: 0 <= k < i ==> cvs[k].id != cvId) ==>
      r[i].parsedData == Some(FailureRecord(failedAt, message))
  {
    match FirstWhere(cvs, (c: Cv) => c.id == cvId)
    case None => cvs
    case Some(j) =>
      if NoParsedData(cvs[j].parsedData) then
        var marked := cvs[j].(parsedData := Some(FailureRecord(failedAt, message)));
        assert marked != cvs[j] by {
          assert "processing_status" in FailureRecord(failedAt, message);
        }
        assert cvs[j := marked][j] != cvs[j];
        cvs[j := marked]
      else cvs
  }

  /** The statuses the failure handler commits. */
  function FailedMark(cvs: seq<Cv>, cvId: string): seq<string> {
    if FailureMarkSaved(cvs, cvId) then ["failed"] else []
  }

  /** The first commit of `process_cv` saves "processing" only into a CV
      without parsed data, for the reason `FailureMarkSaved` gives. */
  function StartMark(p: Option<JsonObject>): seq<string> {
    if NoParsedData(p) then ["processing"] else []
  }

  /** The parsed data of the second commit: the analysis, which replaces
      everything stored before, with the completion fields added. */
  function CompletedAnalysis(analysis: JsonObject, completedAt: string): JsonObject {
    analysis["processing_status" := JStr("completed")]
            ["processing_completed_at" := JStr(completedAt)]
            ["extracted_skills_count" := JNum(0)]
  }

  /** The CV row after the second commit. */
  function Processed(cv: Cv, analysis: JsonObject, completedAt: string): Cv {
    cv.(extractedText := Some(ExtractedTextPlaceholder), parsedData := Some(CompletedAnalysis(analysis, completedAt)))
  }

  /** `process_cv`: the owner's CV is marked processing, its text and AI
      analysis are stored, it is marked completed and matching for it is
      queued; the analysis replaces the whole of `parsed_data`, so the start
      time written first, and read back for the result, is gone unless the
      model supplied one. Any exception goes to the failure handler and is
      raised again; a request queued before it stays queued. `completion`
      is the chat model's reply about the extracted text. */
  function ProcessCvTask(cvs: seq<Cv>, cvId: string, userId: string, completedAt: string,
                         failedAt: string, completion: Outcome<string>, parse: AiService.JsonParser)
    : (r: ProcessRun)
    ensures |r.cvs| == |cvs|
    ensures forall i :: 0 <= i < |cvs| && r.cvs[i] != cvs[i] ==> cvs[i].id == cvId
    ensures r.result.Ok? ==>
      && r.result.value == ProcessReport(cvId, 0)
      && exists i :: 0 <= i < |cvs| && cvs[i].id == cvId && cvs[i].userId == userId
           && "processing_started_at" in AiService.AnalyzeCv(completion, parse)
           && r.cvs == cvs[i := Processed(cvs[i], AiService.AnalyzeCv(completion, parse), completedAt)]
           && r.statuses == StartMark(cvs[i].parsedData) + ["completed"]
    ensures "failed" in r.statuses ==> r.result.Raise? && r.statuses[|r.statuses| - 1] == "failed"
    ensures (forall i :: 0 <= i < |cvs| ==> cvs[i].id != cvId) ==>
      r == ProcessRun(cvs, [], [], Raise("CV not found: " + cvId))
    ensures r.queued != [] <==> exists i :: 0 <= i < |cvs| && cvs[i].id == cvId && cvs[i].userId == userId
    ensures r.queued != [] ==> r.queued == [CvMatchingRequest(cvId, userId)] && "completed" in r.statuses
  {
    match FirstWhere(cvs, (c: Cv) => c.id == cvId && c.userId == userId)
    case None =>
      var message := "CV not found: " + cvId;
      ProcessRun(MarkFailed(cvs, cvId, failedAt, message), FailedMark(cvs, cvId), [], Raise(message))
    case Some(i) =>
      var analysis := AiService.AnalyzeCv(completion, parse);
      var stored := cvs[i := Processed(cvs[i], analysis, completedAt)];
      var committed := StartMark(cvs[i].parsedData) + ["completed"];
      var queued := [CvMatchingRequest(cvId, userId)];
      if "processing_started_at" in analysis then
        ProcessRun(stored, committed, queued, Ok(ProcessReport(cvId, 0)))
      else
        var message := KeyErrorText("processing_started_at");
        ProcessRun(MarkFailed(stored, cvId, failedAt, message), committed + FailedMark(stored, cvId), queued,
                   Raise(message))
  }

  /** Unless the model's analysis happens to carry a start time, processing
      an existing CV commits "completed" and then fails on reading the start
      time back. The failure handler finds the completed analysis there, so
      its mark is not saved: the CV stays "completed" while the task raises
      the `KeyError`. The CV's id is its primary key, so no other row has
      it. */
  lemma ProcessCvFailsWithoutStartTime(cvs: seq<Cv>, cvId: string, userId: string,
                                       completedAt: string, failedAt: string, completion: Outcome<string>,
                                       parse: AiService.JsonParser, i: nat)
    requires i < |cvs| && cvs[i].id == cvId && cvs[i].userId == userId
    requires forall j :: 0 <= j < |cvs| && cvs[j].id == cvId ==> j == i
    requires "processing_started_at" !in AiService.AnalyzeCv(completion, parse)
    ensures var r := ProcessCvTask(cvs, cvId, userId, completedAt, failedAt, completion, parse);
            var analysis := AiService.AnalyzeCv(completion, parse);
            && r.result == Raise(KeyErrorText("processing_started_at"))
            && r.queued == [CvMatchingRequest(cvId, userId)]
            && r.statuses == StartMark(cvs[i].parsedData) + ["completed"]
            && r.cvs == cvs[i := Processed(cvs[i], analysis, completedAt)]
            && r.cvs[i].parsedData.value["processing_status"] == JStr("completed")
  {
    var p := (c: Cv) => c.id == cvId && c.userId == userId;
    assert FirstWhere(cvs, p) == Some(i);
    var analysis := AiService.AnalyzeCv(completion, parse);
    var stored := cvs[i := Processed(cvs[i], analysis, completedAt)];
    assert FirstWhere(stored, (c: Cv) => c.id == cvId) == Some(i) by {
      var q := (c: Cv) => c.id == cvId;
      var k := FirstWhere(stored, q);
      assert q(stored[i]);
      assert k.Some? && k.value <= i;
    }
    assert !FailureMarkSaved(stored, cvId) by {
      assert "processing_status" in stored[i].parsedData.value;
    }
  }

  /** In particular, when the chat model fails the fallback analysis has no
      start time and processing fails. */
  lemma ProcessCvFailsOnFallback(cvs: seq<Cv>, cvId: string, userId: string,
                                 completedAt: string, failedAt: string, completion: Outcome<string>,
                                 parse: AiService.JsonParser, i: nat)
    requires i < |cvs| && cvs[i].id == cvId && cvs[i].userId == userId
    requires completion.Raise?
    ensures ProcessCvTask(cvs, cvId, userId, completedAt, failedAt, completion, parse).result
         == Raise(KeyErrorText("processing_started_at"))
  {
    assert "processing_started_at" !in AiService.FallbackCvAnalysis;
  }

  /** A CV id that belongs to another user is reported as not found, yet
      the failure handler, which looks the CV up by id alone, marks that
      user's CV failed, and the mark is saved exactly when the CV has no
      parsed data. */
  lemma ProcessCvMarksForeignCvFailed(cvs: seq<Cv>, cvId: string, userId: string,
                                      completedAt: string, failedAt: string, completion: Outcome<string>,
                                      parse: AiService.JsonParser, i: nat)
    requires i < |cvs| && cvs[i].id == cvId && forall k :: 0 <= k < i ==> cvs[k].id != cvId
    requires forall j :: 0 <= j < |cvs| && cvs[j].id == cvId ==> cvs[j].userId != userId
    ensures var r := ProcessCvTask(cvs, cvId, userId, completedAt, failedAt, completion, parse);
            var message := "CV not found: " + cvId;
            && r.result == Raise(message)
            && r.queued == []
            && (NoParsedData(cvs[i].parsedData) ==>
                  r.cvs == cvs[i := cvs[i].(parsedData := Some(FailureRecord(failedAt, message)))]
                  && r.statuses == ["failed"])
            && (!NoParsedData(cvs[i].parsedData) ==> r.cvs == cvs && r.statuses == [])
  {
    assert FirstWhere(cvs, (c: Cv) => c.id == cvId) == Some(i);
  }

  // ---------------------------------------------------------------------
  // search_jobs

  /** A `trigger_job_matching.delay(cv_id, job_ids)` call. */
  datatype MatchingRequest = MatchingRequest(cvId: string, jobIds: seq<string>)

  datatype SearchReport = SearchReport(userId: string, keywords: string, jobsFound: nat, jobsSaved: nat,
                                       requests: seq<MatchingRequest>)

  function ListingIds(rows: seq<JobListing>): (r: seq<string>)
    ensures |r| == |rows| && forall i :: 0 <= i < |rows| ==> r[i] == rows[i].id
  {
    seq(|rows|, i requires 0 <= i < |rows| => rows[i].id)
  }

  /** The aggregate request `search_jobs` sends. */
  function SearchRequest(keywords: string, location: Option<string>, limit: int): JsonObject {
    map["keywords" := JStr(keywords),
        "location" := (if location.Some? then JStr(location.value) else JNull),
        "sources" := Mcp.DefaultSources,
        "limit" := JNum(limit)]
  }

  /** What `search_jobs` does with the aggregate result: a failure
      raises; otherwise every job found is saved and each of the user's
      active CVs is queued for matching against the saved listings. */
  function StoreSearch(db: Db, userId: string, keywords: string, result: Mcp.ToolResult, ids: NewIds<string>,
                       parseTime: IsoParser)
    : (r: TaskRun<SearchReport>)
    ensures r.db == db.(jobs := r.db.jobs) && db.jobs <= r.db.jobs
    ensures result.Failed? ==> r == TaskRun(db, Raise("Job search failed: " + result.error))
    ensures result.Succeeded? ==>
      var p := SaveJobs(db.jobs, AgentGraph.ResultJobs(result), ids, parseTime);
      && r.db.jobs == p.table
      && (r.result.Raise? <==> p.failure.Some?)
      && (p.failure.Some? ==> r.result.msg == p.failure.value)
    ensures r.result.Ok? ==>
      && result.Succeeded?
      && r.result.value.jobsFound == r.result.value.jobsSaved == |AgentGraph.ResultJobs(result)|
      && (forall i :: 0 <= i < |AgentGraph.ResultJobs(result)| ==>
            Listed(r.db.jobs, AgentGraph.ResultJobs(result)[i].id))
      && |r.result.value.requests| == |ActiveCvs(db.cvs, userId)|
    ensures r.result.Ok? ==>
      var saved := SaveJobs(db.jobs, AgentGraph.ResultJobs(result), ids, parseTime).rows;
      && |saved| == |AgentGraph.ResultJobs(result)|
      && (forall k :: 0 <= k < |saved| ==>
            saved[k].externalId == AgentGraph.ResultJobs(result)[k].id && saved[k] in r.db.jobs)
      && forall i :: 0 <= i < |r.result.value.requests| ==>
           r.result.value.requests[i] == MatchingRequest(ActiveCvs(db.cvs, userId)[i].id, ListingIds(saved))
  {
    if result.Failed? then TaskRun(db, Raise("Job search failed: " + result.error))
    else
      var jobs := AgentGraph.ResultJobs(result);
      var p := SaveJobs(db.jobs, jobs, ids, parseTime);
      var db' := db.(jobs := p.table);
      if p.failure.Some? then TaskRun(db', Raise(p.failure.value))
      else
        assert forall i :: 0 <= i < |jobs| ==> Listed(p.table, jobs[i].id) by {
          forall i | 0 <= i < |jobs| ensures Listed(p.table, jobs[i].id) {
            var k :| 0 <= k < |p.table| && p.table[k] == p.rows[i];
          }
        }
        var active := ActiveCvs(db.cvs, userId);
        var requests := seq(|active|, i requires 0 <= i < |active| => MatchingRequest(active[i].id, ListingIds(p.rows)));
        TaskRun(db', Ok(SearchReport(userId, keywords, |jobs|, |p.rows|, requests)))
  }

  /** `search_jobs`. The request names the boards in querying order, so
      the search's answer does not depend on the aggregator's labelling. */
  function SearchJobsTask(db: Db, userId: string, keywords: string, location: Option<string>, limit: int,
                          clock: Clock, boardClock: Mcp.Provider -> Clock, labelling: Mcp.Labelling,
                          ids: NewIds<string>, parseTime: IsoParser)
    : (r: TaskRun<SearchReport>)
    ensures r == StoreSearch(db, userId, keywords,
                             Mcp.ExecuteTool("aggregate_jobs", SearchRequest(keywords, location, limit), clock,
                                             boardClock, Mcp.ByBoard),
                             ids, parseTime)
  {
    var request := SearchRequest(keywords, location, limit);
    var result := Mcp.ExecuteTool("aggregate_jobs", request, clock, boardClock, labelling);
    assert result == Mcp.ExecuteTool("aggregate_jobs", request, clock, boardClock, Mcp.ByBoard) by {
      if labelling.Positional? {
        Mcp.DefaultSourcesExecuteAlike("aggregate_jobs", request, clock, boardClock);
      }
    }
    StoreSearch(db, userId, keywords, result, ids, parseTime)
  }

  /** As written, a search stores nothing: it succeeds only when every job
      it found was stored already, and raises the database's error at the
      first new one. */
  lemma AsWrittenSearchStoresNothing(db: Db, userId: string, keywords: string, location: Option<string>, limit: int,
                                     clock: Clock, boardClock: Mcp.Provider -> Clock, labelling: Mcp.Labelling,
                                     dbError: string, parseTime: IsoParser)
    ensures var r := SearchJobsTask(db, userId, keywords, location, limit, clock, boardClock, labelling,
                                    Unassigned(dbError), parseTime);
      var result := Mcp.ExecuteTool("aggregate_jobs", SearchRequest(keywords, location, limit), clock, boardClock,
                                    Mcp.ByBoard);
      && r.db == db
      && (result.Succeeded? ==>
            (r.result.Ok? <==> forall i :: 0 <= i < |AgentGraph.ResultJobs(result)| ==>
                                 Listed(db.jobs, AgentGraph.ResultJobs(result)[i].id)))
  {
    var result := Mcp.ExecuteTool("aggregate_jobs", SearchRequest(keywords, location, limit), clock, boardClock,
                                  Mcp.ByBoard);
    if result.Succeeded? {
      AsWrittenSaveJobsAddNothing(db.jobs, AgentGraph.ResultJobs(result), dbError, parseTime);
    }
  }

  // ---------------------------------------------------------------------
  // trigger_cv_matching / trigger_job_matching

  datatype MatchingReport =
    | NoRelevantJobs(cvId: string)
    | Matched(cvId: string, jobsMatched: nat, matchesCreated: nat, executionTime: real)

  /** `result.get("match_results", {}).get("matches", [])`: a run that
      crashed has no match results, and a finished run whose match results
      are still `None` makes the second `get` fail. */
  function WorkflowMatches(run: AgentGraph.WorkflowResult): (r: Outcome<seq<AgentGraph.MatchEntry>>)
    ensures run.Crashed? ==> r == Ok([])
    ensures run.Completed? ==>
      r == if run.state.matchResults.None? then Raise(AgentGraph.NoMatchResultsMessage)
           else Ok(run.state.matchResults.value.matches)
  {
    match run
    case Crashed(_, _, _, _) => Ok([])
    case Completed(st) =>
      if st.matchResults.None? then Raise(AgentGraph.NoMatchResultsMessage) else Ok(st.matchResults.value.matches)
  }

  /** `result.get("execution_time")`: both a finished run and a crash
      record carry it. */
  function ExecutionTime(run: AgentGraph.WorkflowResult): real {
    if run.Completed? then run.state.executionTime.GetOr(0.0) else run.executionTime
  }

  /** The matching request both matching tasks send, and the saving of its
      matches. */
  function MatchAndSave(db: Db, userId: string, cvId: string, jobIds: Json, jobsMatched: nat,
                        env: AgentGraph.Env, routing: AgentGraph.Routing, now: string,
                        ids: NewIds<(string, string, string)>)
    : (r: TaskRun<MatchingReport>)
    ensures r.db == db.(matches := r.db.matches)
    ensures var found := WorkflowMatches(AgentGraph.RunWorkflow(userId, "matching",
                                           map["cv_id" := JStr(cvId), "job_ids" := jobIds], env, routing));
      && (found.Raise? ==> r == TaskRun(db, Raise(found.msg)))
      && (found.Ok? && r.result.Raise? ==> ids == Unassigned(r.result.msg))
      && (found.Ok? && ids.Assigned? ==> r.result.Ok?)
      && (r.result.Ok? ==>
            && found.Ok?
            && r.result.value.Matched? && r.result.value.cvId == cvId
            && r.result.value.jobsMatched == jobsMatched && r.result.value.matchesCreated == |found.value|
            && forall i :: 0 <= i < |found.value| ==> HasMatch(r.db.matches, (userId, cvId, found.value[i].jobId)))
  {
    var run := AgentGraph.RunWorkflow(userId, "matching", map["cv_id" := JStr(cvId), "job_ids" := jobIds], env, routing);
    match WorkflowMatches(run)
    case Raise(m) => TaskRun(db, Raise(m))
    case Ok(entries) =>
      var p := SaveMatches(db.matches, userId, cvId, entries, now, ids);
      if p.failure.Some? then TaskRun(db.(matches := p.table), Raise(p.failure.value))
      else TaskRun(db.(matches := p.table), Ok(Matched(cvId, jobsMatched, |p.rows|, ExecutionTime(run))))
  }

  /** `trigger_cv_matching`: matching against the recent listings, or a
      success with nothing to do when there are none. */
  function TriggerCvMatchingTask(db: Db, cvId: string, userId: string, clock: int, env: AgentGraph.Env,
                                 routing: AgentGraph.Routing, now: string,
                                 ids: NewIds<(string, string, string)>)
    : (r: TaskRun<MatchingReport>)
    ensures RelevantJobs(db.jobs, clock) == [] ==> r == TaskRun(db, Ok(NoRelevantJobs(cvId)))
    ensures r.db == db.(matches := r.db.matches)
  {
    var relevant := RelevantJobs(db.jobs, clock);
    if |relevant| == 0 then TaskRun(db, Ok(NoRelevantJobs(cvId)))
    else
      var listed := ListingIds(relevant);
      MatchAndSave(db, userId, cvId, JArr(seq(|listed|, i requires 0 <= i < |listed| => JStr(listed[i]))), |relevant|,
                   env, routing, now, ids)
  }

  /** `trigger_job_matching`: the CV's owner is looked up by the CV id. */
  function TriggerJobMatchingTask(db: Db, cvId: string, jobIds: seq<string>, env: AgentGraph.Env,
                                  routing: AgentGraph.Routing, now: string,
                                  ids: NewIds<(string, string, string)>)
    : (r: TaskRun<MatchingReport>)
    ensures (forall i :: 0 <= i < |db.cvs| ==> db.cvs[i].id != cvId) ==> r == TaskRun(db, Raise("CV not found: " + cvId))
    ensures r.db == db.(matches := r.db.matches)
  {
    match FirstWhere(db.cvs, (c: Cv) => c.id == cvId)
    case None => TaskRun(db, Raise("CV not found: " + cvId))
    case Some(i) =>
      MatchAndSave(db, db.cvs[i].userId, cvId, JArr(seq(|jobIds|, k requires 0 <= k < |jobIds| => JStr(jobIds[k]))),
                   |jobIds|, env, routing, now, ids)
  }

  /** The matching workflow never matches a job, so matching saves nothing
      and reports no matches created, on either routing. */
  lemma MatchAndSaveCreatesNothing(db: Db, userId: string, cvId: string, jobIds: Json, jobsMatched: nat,
                                   env: AgentGraph.Env, routing: AgentGraph.Routing, now: string,
                                   ids: NewIds<(string, string, string)>)
    ensures MatchAndSave(db, userId, cvId, jobIds, jobsMatched, env, routing, now, ids)
         == TaskRun(db, Ok(Matched(cvId, jobsMatched, 0, env.elapsed)))
  {
    var input := map["cv_id" := JStr(cvId), "job_ids" := jobIds];
    AgentGraph.MatchingRouteMatchesNothing(userId, input, env, routing);
  }

  lemma TriggerCvMatchingCreatesNothing(db: Db, cvId: string, userId: string, clock: int, env: AgentGraph.Env,
                                        routing: AgentGraph.Routing, now: string,
                                        ids: NewIds<(string, string, string)>)
    ensures var r := TriggerCvMatchingTask(db, cvId, userId, clock, env, routing, now, ids);
            && r.db == db
            && r.result.Ok?
            && (r.result.value.Matched? ==> r.result.value.matchesCreated == 0
                                            && r.result.value.jobsMatched == |RelevantJobs(db.jobs, clock)|)
  {
    var relevant := RelevantJobs(db.jobs, clock);
    if |relevant| > 0 {
      var listed := ListingIds(relevant);
      MatchAndSaveCreatesNothing(db, userId, cvId, JArr(seq(|listed|, i requires 0 <= i < |listed| => JStr(listed[i]))),
                                 |relevant|, env, routing, now, ids);
    }
  }

  lemma TriggerJobMatchingCreatesNothing(db: Db, cvId: string, jobIds: seq<string>, env: AgentGraph.Env,
                                         routing: AgentGraph.Routing, now: string,
                                         ids: NewIds<(string, string, string)>, i: nat)
    requires i < |db.cvs| && db.cvs[i].id == cvId
    ensures TriggerJobMatchingTask(db, cvId, jobIds, env, routing, now, ids)
         == TaskRun(db, Ok(Matched(cvId, |jobIds|, 0, env.elapsed)))
  {
    var k := FirstWhere(db.cvs, (c: Cv) => c.id == cvId).value;
    MatchAndSaveCreatesNothing(db, db.cvs[k].userId, cvId,
                               JArr(seq(|jobIds|, j requires 0 <= j < |jobIds| => JStr(jobIds[j]))),
                               |jobIds|, env, routing, now, ids);
  }

  // ---------------------------------------------------------------------
  // generate_recommendations

  datatype RecommendationReport =
    | NoActiveCvs(userId: string)
    | Generated(userId: string, recommendationsGenerated: nat, executionTime: real)

  /** `for rec_data in result.get("recommendations", [])`: a crash record
      has none, and a finished run whose recommendations are still `None`
      cannot be iterated. */
  function WorkflowRecommendations(run: AgentGraph.WorkflowResult): (r: Outcome<seq<JsonObject>>)
    ensures run.Crashed? ==> r == Ok([])
    ensures run.Completed? && run.state.recommendations.None? ==> r == Raise("'NoneType' object is not iterable")
    ensures run.Completed? && run.state.recommendations.Some? ==> r == Ok(run.state.recommendations.value)
  {
    match run
    case Crashed(_, _, _, _) => Ok([])
    case Completed(st) =>
      if st.recommendations.None? then Raise("'NoneType' object is not iterable") else Ok(st.recommendations.value)
  }

  function CvIds(cvs: seq<Cv>): (r: Json)
    ensures r.JArr? && |r.items| == |cvs|
  {
    JArr(seq(|cvs|, i requires 0 <= i < |cvs| => JStr(cvs[i].id)))
  }

  /** The request the task sends. The user's matches travel as their ids;
      the workflow never reads them. */
  function RecommendationRequest(db: Db, userId: string, active: seq<Cv>): JsonObject {
    var mine := Filter(db.matches, (m: JobMatch) => m.userId == userId);
    map["user_id" := JStr(userId),
        "cvs" := CvIds(active),
        "matches" := JArr(seq(|mine|, i requires 0 <= i < |mine| => JStr(mine[i].id)))]
  }

  /** `generate_recommendations`: nothing to do without an active CV;
      otherwise the recommendations workflow runs and each recommendation it
      returns is saved. */
  function GenerateRecommendationsTask(db: Db, userId: string, env: AgentGraph.Env, routing: AgentGraph.Routing,
                                       now: string, skillIds: NewIds<string>,
                                       recIds: NewIds<(string, string)>)
    : (r: TaskRun<RecommendationReport>)
    ensures ActiveCvs(db.cvs, userId) == [] ==> r == TaskRun(db, Ok(NoActiveCvs(userId)))
    ensures r.db == db.(skills := r.db.skills, recommendations := r.db.recommendations)
  {
    var active := ActiveCvs(db.cvs, userId);
    if |active| == 0 then TaskRun(db, Ok(NoActiveCvs(userId)))
    else
      var run := AgentGraph.RunWorkflow(userId, "recommendations", RecommendationRequest(db, userId, active),
                                        env, routing);
      match WorkflowRecommendations(run)
      case Raise(m) => TaskRun(db, Raise(m))
      case Ok(recs) =>
        var saved := SaveRecommendations(SkillTables(db.skills, db.recommendations), userId, recs, now,
                                         skillIds, recIds);
        var db' := db.(skills := saved.0.skills, recommendations := saved.0.recommendations);
        if saved.2.Some? then TaskRun(db', Raise(saved.2.value))
        else TaskRun(db', Ok(Generated(userId, saved.1, ExecutionTime(run))))
  }

  /** With the routing the graph intends, the workflow goes straight to
      recommendation generation, which fails for want of match results; the
      finished state's recommendations are `None`, so the task raises and
      saves nothing. */
  lemma IntendedRecommendationsRaise(db: Db, userId: string, env: AgentGraph.Env, now: string,
                                     skillIds: NewIds<string>, recIds: NewIds<(string, string)>)
    requires ActiveCvs(db.cvs, userId) != []
    ensures GenerateRecommendationsTask(db, userId, env, AgentGraph.Intended, now, skillIds, recIds)
         == TaskRun(db, Raise("'NoneType' object is not iterable"))
  {
    var active := ActiveCvs(db.cvs, userId);
    AgentGraph.DirectRecommendationsFail(userId, RecommendationRequest(db, userId, active), env);
  }

  /** With the router as written, the workflow crashes and the task
      reports success with no recommendations. */
  lemma AsWrittenRecommendationsSaveNothing(db: Db, userId: string, env: AgentGraph.Env, now: string,
                                            skillIds: NewIds<string>, recIds: NewIds<(string, string)>)
    requires ActiveCvs(db.cvs, userId) != []
    ensures GenerateRecommendationsTask(db, userId, env, AgentGraph.AsWritten, now, skillIds, recIds)
         == TaskRun(db, Ok(Generated(userId, 0, env.elapsed)))
  {
    var active := ActiveCvs(db.cvs, userId);
    var input := RecommendationRequest(db, userId, active);
    assert forall k :: k in AgentGraph.RequiredKeys("recommendations") ==> k in input;
    AgentGraph.AsWrittenRouterCrashes(userId, "recommendations", input, env);
  }

  // ---------------------------------------------------------------------
  // cleanup_old_cvs

  /** The CVs `cleanup_old_cvs` selects: inactive and created more than 90
      days ago. */
  predicate Stale(cv: Cv, now: int) {
    cv.createdAt < now - 90 * Day && !cv.isActive
  }

  /** A CV the clean-up loop deletes: stale, and `removable(path)` says
      that checking for and removing its file raises nothing. */
  predicate Swept(cv: Cv, now: int, removable: string -> bool) {
    Stale(cv, now) && removable(cv.filePath)
  }

  /** The clean-up loop: each swept CV has its file removed and its row
      marked for deletion; a CV whose file cannot be removed stays. Returns
      the CVs kept and the number deleted. */
  function SweepOldCvs(cvs: seq<Cv>, now: int, removable: string -> bool): (r: (seq<Cv>, nat))
    ensures |r.0| + r.1 == |cvs|
    ensures forall i :: 0 <= i < |r.0| ==> r.0[i] in cvs && !Swept(r.0[i], now, removable)
    ensures forall i :: 0 <= i < |cvs| && !Swept(cvs[i], now, removable) ==> cvs[i] in r.0
    decreases |cvs|
  {
    if |cvs| == 0 then ([], 0)
    else
      var rest := SweepOldCvs(cvs[1..], now, removable);
      assert cvs == [cvs[0]] + cvs[1..];
      if Swept(cvs[0], now, removable) then (rest.0, rest.1 + 1)
      else ([cvs[0]] + rest.0, rest.1)
  }

  /** Some CV the loop deletes has the id `cvId`. */
  predicate SweptId(cvs: seq<Cv>, now: int, removable: string -> bool, cvId: string) {
    exists i :: 0 <= i < |cvs| && Swept(cvs[i], now, removable) && cvs[i].id == cvId
  }

  datatype Cleanup = Cleanup(cvs: seq<Cv>, cvSkills: seq<CvSkill>, result: Outcome<nat>)

  /** `cleanup_old_cvs`: the deletions are flushed by the one commit after
      the loop. Deleting a CV also deletes its `cv_skills` rows, and sets
      `cv_id` of its job matches to null, which the NOT NULL column
      refuses; so when any deleted CV has a match, the commit raises
      `dbError`, the task re-raises it and no row changes, although the
      loop has already removed the files. */
  function CleanupOldCvs(cvs: seq<Cv>, cvSkills: seq<CvSkill>, matches: seq<JobMatch>, now: int,
                         removable: string -> bool, dbError: string): (r: Cleanup)
    ensures r.result.Raise? <==>
      exists i :: 0 <= i < |cvs| && Swept(cvs[i], now, removable) && HasMatches(matches, cvs[i].id)
    ensures r.result.Raise? ==> r == Cleanup(cvs, cvSkills, Raise(dbError))
    ensures r.result.Ok? ==>
      && |r.cvs| + r.result.value == |cvs|
      && (forall c :: c in r.cvs <==> c in cvs && !Swept(c, now, removable))
      && forall x :: x in r.cvSkills <==> x in cvSkills && !SweptId(cvs, now, removable, x.cvId)
  {
    if exists i :: 0 <= i < |cvs| && Swept(cvs[i], now, removable) && HasMatches(matches, cvs[i].id) then
      Cleanup(cvs, cvSkills, Raise(dbError))
    else
      var (kept, deleted) := SweepOldCvs(cvs, now, removable);
      Cleanup(kept, Filter(cvSkills, (x: CvSkill) => !SweptId(cvs, now, removable, x.cvId)), Ok(deleted))
  }

  /** Clean-up touches no active CV and no recent one. */
  lemma CleanupKeepsActiveAndRecent(cvs: seq<Cv>, cvSkills: seq<CvSkill>, matches: seq<JobMatch>, now: int,
                                    removable: string -> bool, dbError: string, i: nat)
    requires i < |cvs| && (cvs[i].isActive || cvs[i].createdAt >= now - 90 * Day)
    ensures cvs[i] in CleanupOldCvs(cvs, cvSkills, matches, now, removable, dbError).cvs
  {
  }

  // ---------------------------------------------------------------------
  // update_job_listings

  const PopularKeywords: seq<string> := ["software developer", "data scientist", "product manager", "designer", "marketing"]

  /** The clock readings of one keyword's search: the aggregator's own and
      each board's. The keywords are searched one after another and every
      board sleeps a second before it builds its listing, so each search
      reads the clocks anew. */
  datatype SearchTime = SearchTime(clock: Clock, boardClock: Mcp.Provider -> Clock)

  /** The aggregate request for one keyword: the default sources and 50
      results. */
  function KeywordRequest(keyword: string): JsonObject {
    map["keywords" := JStr(keyword), "limit" := JNum(50)]
  }

  /** The aggregate search run for one keyword. The default sources name
      the boards in querying order, so the labelling makes no difference. */
  function KeywordSearch(keyword: string, t: SearchTime, labelling: Mcp.Labelling): (r: Mcp.ToolResult)
    ensures r == Mcp.ExecuteTool("aggregate_jobs", KeywordRequest(keyword), t.clock, t.boardClock, Mcp.ByBoard)
  {
    Mcp.DefaultSourcesExecuteAlike("aggregate_jobs", KeywordRequest(keyword), t.clock, t.boardClock);
    Mcp.ExecuteTool("aggregate_jobs", KeywordRequest(keyword), t.clock, t.boardClock, labelling)
  }

  /** The jobs a keyword's search contributes: those of a successful
      search, none otherwise. */
  function SearchedJobs(keyword: string, t: SearchTime): seq<Mcp.Job> {
    var result := KeywordSearch(keyword, t, Mcp.ByBoard);
    if result.Succeeded? then AgentGraph.ResultJobs(result) else []
  }

  /** The jobs a keyword contributes to the count, already stored or not. */
  function Found(keyword: string, t: SearchTime): nat {
    |SearchedJobs(keyword, t)|
  }

  function TotalFound(keywords: seq<string>, times: seq<SearchTime>): nat
    requires |times| == |keywords|
  {
    if |keywords| == 0 then 0 else Found(keywords[0], times[0]) + TotalFound(keywords[1..], times[1..])
  }

  /** Every job of each keyword's own search is stored once the refresh is
      done. */
  predicate ListsSearched(jobs: seq<JobListing>, keywords: seq<string>, times: seq<SearchTime>)
    requires |times| == |keywords|
  {
    forall k, i :: 0 <= k < |keywords| && 0 <= i < |SearchedJobs(keywords[k], times[k])| ==>
      Listed(jobs, SearchedJobs(keywords[k], times[k])[i].id)
  }

  /** Each job a keyword's search finds is one board's listing for that
      keyword, stamped with that search's own reading of the board's
      clock. */
  lemma SearchedJobCarriesItsReading(keyword: string, t: SearchTime, j: Mcp.Job)
    requires j in SearchedJobs(keyword, t)
    ensures exists p :: j == Mcp.BoardJob(p, keyword, KeywordRequest(keyword), t.boardClock(p))
                        && j.id == Mcp.SourceName(p) + "_" + t.boardClock(p).epoch
  {
    var request := KeywordRequest(keyword);
    var outcome := Mcp.BoardOutcomes(keyword, request, t.boardClock);
    var result := Mcp.ExecuteTool("aggregate_jobs", request, t.clock, t.boardClock, Mcp.ByBoard);
    assert result == Mcp.AggregateWith(request, t.clock, outcome, Mcp.ByBoard);
    Mcp.AggregateJobsProvenance(request, t.clock, outcome, Mcp.ByBoard, j);
    var p :| Mcp.Delivered(outcome(p)) && j in Mcp.DeliveredJobs(outcome(p));
    assert outcome(p) == Mcp.Returned(Mcp.ProviderExecute(p, keyword, request, t.boardClock(p)));
  }

  /** Two searches whose readings of every board's clock differ find no
      job in common, so each keyword's listings are stored under external
      ids of their own. */
  lemma DistinctReadingsFindDistinctJobs(k1: string, t1: SearchTime, k2: string, t2: SearchTime,
                                         j1: Mcp.Job, j2: Mcp.Job)
    requires forall p :: t1.boardClock(p).epoch != t2.boardClock(p).epoch
    requires j1 in SearchedJobs(k1, t1) && j2 in SearchedJobs(k2, t2)
    ensures j1.id != j2.id
  {
    SearchedJobCarriesItsReading(k1, t1, j1);
    SearchedJobCarriesItsReading(k2, t2, j2);
    var p1 :| j1.id == Mcp.SourceName(p1) + "_" + t1.boardClock(p1).epoch;
    var p2 :| j2.id == Mcp.SourceName(p2) + "_" + t2.boardClock(p2).epoch;
    StampsDiffer(p1, t1.boardClock(p1).epoch, p2, t2.boardClock(p2).epoch);
  }

  /** Listing ids of different boards, or of one board at different
      readings, differ. */
  lemma StampsDiffer(p1: Mcp.Provider, e1: string, p2: Mcp.Provider, e2: string)
    requires p1 != p2 || e1 != e2
    ensures Mcp.SourceName(p1) + "_" + e1 != Mcp.SourceName(p2) + "_" + e2
  {
    var a, b := Mcp.SourceName(p1) + "_" + e1, Mcp.SourceName(p2) + "_" + e2;
    if p1 == p2 {
      var n := |Mcp.SourceName(p1) + "_"|;
      assert a[n..] == e1 && b[n..] == e2;
    } else {
      assert a[0] == Mcp.SourceName(p1)[0] && b[0] == Mcp.SourceName(p2)[0];
    }
  }

  /** The refresh loop over `keywords`, each searched at its own time in
      `times`: a failed search is skipped, the jobs of a successful one are
      saved and counted, and an exception while saving ends the task. */
  function RefreshListings(jobs: seq<JobListing>, keywords: seq<string>, times: seq<SearchTime>,
                           labelling: Mcp.Labelling, ids: NewIds<string>, parseTime: IsoParser)
    : (r: (seq<JobListing>, Outcome<nat>))
    requires |times| == |keywords|
    ensures jobs <= r.0
    ensures r.1.Ok? ==> r.1.value == TotalFound(keywords, times)
    ensures r.1.Ok? ==> ListsSearched(r.0, keywords, times)
    ensures UniqueBy(jobs, ExternalId) ==> UniqueBy(r.0, ExternalId)
    ensures ids.Unassigned? ==> r.0 == jobs
    decreases |keywords|
  {
    if |keywords| == 0 then (jobs, Ok(0))
    else
      var result := KeywordSearch(keywords[0], times[0], labelling);
      var found := SearchedJobs(keywords[0], times[0]);
      var p := SaveJobs(jobs, found, ids, parseTime);
      SaveJobsKeepsUniqueWhen(jobs, found, ids, parseTime);
      if ids.Unassigned? then
        AsWrittenSaveJobsAddNothing(jobs, found, ids.dbError, parseTime);
        RefreshRest(jobs, keywords, times, labelling, ids, parseTime, p)
      else
        RefreshRest(jobs, keywords, times, labelling, ids, parseTime, p)
  }

  /** The rest of the refresh, once the first keyword's jobs were saved
      into `p`. */
  function RefreshRest(jobs: seq<JobListing>, keywords: seq<string>, times: seq<SearchTime>,
                       labelling: Mcp.Labelling, ids: NewIds<string>, parseTime: IsoParser, p: Progress<JobListing>)
    : (r: (seq<JobListing>, Outcome<nat>))
    requires |times| == |keywords| > 0 && p == SaveJobs(jobs, SearchedJobs(keywords[0], times[0]), ids, parseTime)
    requires UniqueBy(jobs, ExternalId) ==> UniqueBy(p.table, ExternalId)
    requires ids.Unassigned? ==> p.table == jobs
    ensures jobs <= r.0
    ensures r.1.Ok? ==> r.1.value == TotalFound(keywords, times)
    ensures r.1.Ok? ==> ListsSearched(r.0, keywords, times)
    ensures UniqueBy(jobs, ExternalId) ==> UniqueBy(r.0, ExternalId)
    ensures ids.Unassigned? ==> r.0 == jobs
    decreases |keywords|, 0
  {
    if p.failure.Some? then (p.table, Raise(p.failure.value))
    else
      var rest := RefreshListings(p.table, keywords[1..], times[1..], labelling, ids, parseTime);
      var out := (rest.0, if rest.1.Ok? then Ok(Found(keywords[0], times[0]) + rest.1.value) else rest.1);
      assert out.1.Ok? ==> ListsSearched(rest.0, keywords, times) by {
        if out.1.Ok? {
          forall k, i | 0 <= k < |keywords| && 0 <= i < |SearchedJobs(keywords[k], times[k])|
            ensures Listed(rest.0, SearchedJobs(keywords[k], times[k])[i].id)
          {
            if k == 0 {
              var j :| 0 <= j < |p.table| && p.table[j] == p.rows[i];
              assert rest.0[j] == p.table[j];
            } else {
              assert keywords[k] == keywords[1..][k - 1] && times[k] == times[1..][k - 1];
            }
          }
        }
      }
      out
  }

  /** Saving keeps external ids unique whenever they were unique before. */
  lemma SaveJobsKeepsUniqueWhen(jobs: seq<JobListing>, list: seq<Mcp.Job>, ids: NewIds<string>, parseTime: IsoParser)
    ensures UniqueBy(jobs, ExternalId) ==> UniqueBy(SaveJobs(jobs, list, ids, parseTime).table, ExternalId)
  {
    if UniqueBy(jobs, ExternalId) {
      SaveJobsKeepsExternalIdsUnique(jobs, list, ids, parseTime);
    }
  }

  /** `update_job_listings`: refreshes the listings for the popular
      keywords, one search after another, and reports how many jobs the
      successful searches found. As written no listing gets an id, so the
      refresh stores nothing. */
  function UpdateJobListings(db: Db, times: seq<SearchTime>, labelling: Mcp.Labelling, ids: NewIds<string>,
                             parseTime: IsoParser)
    : (r: TaskRun<nat>)
    requires |times| == |PopularKeywords|
    ensures r.db == db.(jobs := r.db.jobs) && db.jobs <= r.db.jobs
    ensures r.result.Ok? ==> r.result.value == TotalFound(PopularKeywords, times)
    ensures r.result.Ok? ==> ListsSearched(r.db.jobs, PopularKeywords, times)
    ensures UniqueBy(db.jobs, ExternalId) ==> UniqueBy(r.db.jobs, ExternalId)
    ensures ids.Unassigned? ==> r.db == db
  {
    var r := RefreshListings(db.jobs, PopularKeywords, times, labelling, ids, parseTime);
    TaskRun(db.(jobs := r.0), r.1)
  }
}
