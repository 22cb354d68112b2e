/** The database tables the tasks and the CV service read and write, as
    sequences of rows in insertion order: a query's `.first()` is the first
    row satisfying its filter. Every table's `id` is a string primary key
    with no default, so a new row has an id only if the code inserting it
    sets one; `NewIds` says whether it does. */
module Store {
  import opened Common

  /** Seconds in a day, for the `timedelta(days=...)` cut-offs. */
  const Day: int := 86400

  datatype Cv = Cv(
    id: string,
    userId: string,
    fileName: string,
    filePath: string,
    fileSize: int,
    mimeType: string,
    extractedText: Option<string>,
    parsedData: Option<JsonObject>,
    isActive: bool,
    createdAt: int)

  datatype Skill = Skill(id: string, name: string, category: Json, description: string)

  /** A row of the `cv_skills` association table, keyed by the pair
      `(cvId, skillId)`. */
  datatype CvSkill = CvSkill(cvId: string, skillId: string, level: Json, years: Json)

  datatype JobListing = JobListing(
    id: string,
    externalId: string,
    title: string,
    company: Json,
    location: Json,
    description: string,
    requirements: string,
    url: string,
    source: string,
    postedAt: int,
    isActive: bool)

  datatype JobMatch = JobMatch(
    id: string,
    userId: string,
    cvId: string,
    jobId: string,
    matchScore: Json,
    analysis: JsonObject,
    status: string,
    updatedAt: string)

  datatype Recommendation = Recommendation(
    id: string,
    userId: string,
    skillId: string,
    priority: Json,
    reason: Json,
    resources: Json,
    targetLevel: Json,
    status: string,
    updatedAt: string)

  datatype Db = Db(
    cvs: seq<Cv>,
    skills: seq<Skill>,
    cvSkills: seq<CvSkill>,
    jobs: seq<JobListing>,
    matches: seq<JobMatch>,
    recommendations: seq<Recommendation>)

  /** A table after a save, and the row the save returned. */
  datatype Saved<T> = Saved(table: seq<T>, row: T)

  /** Where the id of a new row comes from. The constructors the program
      calls set no id and the column has no default, so as written the
      database refuses every new row, with the error `dbError`
      (`Unassigned`). The intended insert gives the new row with natural key
      `k` the id `idOf(k)` (`Assigned`). */
  datatype NewIds<!K> = Unassigned(dbError: string) | Assigned(idOf: K -> string)

  /** `query.filter(p).first()`: the index of the first row satisfying `p`. */
  function FirstWhere<T>(rows: seq<T>, p: T -> bool): (r: Option<nat>)
    ensures r.Some? ==> r.value < |rows| && p(rows[r.value])
    ensures r.Some? ==> forall j :: 0 <= j < r.value ==> !p(rows[j])
    ensures r.None? ==> forall j :: 0 <= j < |rows| ==> !p(rows[j])
  {
    if |rows| == 0 then None
    else if p(rows[0]) then Some(0)
    else
      match FirstWhere(rows[1..], p)
      case None => None
      case Some(k) => Some(k + 1)
  }

  /** A row satisfying `p` with none before it is the one `.first()` finds. */
  lemma FirstWhereFinds<T>(rows: seq<T>, p: T -> bool, k: nat)
    requires k < |rows| && p(rows[k])
    requires forall j :: 0 <= j < k ==> !p(rows[j])
    ensures FirstWhere(rows, p) == Some(k)
  {
  }

  /** `query.filter(p).all()`: the rows satisfying `p`, in table order. */
  function Filter<T>(rows: seq<T>, p: T -> bool): (r: seq<T>)
    ensures |r| <= |rows|
    ensures forall i :: 0 <= i < |r| ==> r[i] in rows && p(r[i])
    ensures forall i :: 0 <= i < |rows| && p(rows[i]) ==> rows[i] in r
  {
    if |rows| == 0 then []
    else
      assert rows == [rows[0]] + rows[1..];
      (if p(rows[0]) then [rows[0]] else []) + Filter(rows[1..], p)
  }

  /** Some job match refers to the CV. */
  predicate HasMatches(matches: seq<JobMatch>, cvId: string) {
    exists i :: 0 <= i < |matches| && matches[i].cvId == cvId
  }

  /** No two rows share a key. */
  ghost predicate UniqueBy<T, K>(rows: seq<T>, key: T -> K) {
    forall i, j :: 0 <= i < |rows| && 0 <= j < |rows| && key(rows[i]) == key(rows[j]) ==> i == j
  }

  /** Appending a row whose key is new keeps keys unique. */
  lemma AppendKeepsUnique<T, K>(rows: seq<T>, x: T, key: T -> K)
    requires UniqueBy(rows, key)
    requires forall j :: 0 <= j < |rows| ==> key(rows[j]) != key(x)
    ensures UniqueBy(rows + [x], key)
  {
    var r := rows + [x];
    assert forall k :: 0 <= k < |rows| ==> r[k] == rows[k];
    assert r[|rows|] == x;
  }

  /** Replacing a row by one with the same key keeps keys unique. */
  lemma ReplaceKeepsUnique<T, K>(rows: seq<T>, i: nat, x: T, key: T -> K)
    requires UniqueBy(rows, key)
    requires i < |rows| && key(x) == key(rows[i])
    ensures UniqueBy(rows[i := x], key)
  {
    var r := rows[i := x];
    forall a, b | 0 <= a < |r| && 0 <= b < |r| && key(r[a]) == key(r[b])
      ensures a == b
    {
      assert key(r[a]) == key(rows[a]) && key(r[b]) == key(rows[b]);
    }
  }
}
