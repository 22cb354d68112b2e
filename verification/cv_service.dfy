/** The CV service: ownership-checked lookups and updates of a user's CVs,
    text extraction dispatch, skill extraction from an AI analysis, the
    CV-skill association rows, and the processing of an uploaded CV. */
module CvService {
  import opened Common
  import opened Store
  import AiService

  // ---------------------------------------------------------------------
  // Ownership

  /** The user owns a CV with this id. */
  predicate Owns(cvs: seq<Cv>, cvId: string, userId: string) {
    exists i :: 0 <= i < |cvs| && cvs[i].id == cvId && cvs[i].userId == userId
  }

  /** `get_cv`: the first CV with this id that belongs to the user. */
  function GetCv(cvs: seq<Cv>, cvId: string, userId: string): (r: Option<Cv>)
    ensures r.Some? <==> Owns(cvs, cvId, userId)
    ensures r.Some? ==> r.value in cvs && r.value.id == cvId && r.value.userId == userId
  {
    match FirstWhere(cvs, (c: Cv) => c.id == cvId && c.userId == userId)
    case None => None
    case Some(i) => Some(cvs[i])
  }

  /** `get_active_cv`: the user's first active CV. */
  function GetActiveCv(cvs: seq<Cv>, userId: string): (r: Option<Cv>)
    ensures r.Some? ==> r.value in cvs && r.value.userId == userId && r.value.isActive
    ensures r.None? <==> forall i :: 0 <= i < |cvs| ==> !(cvs[i].userId == userId && cvs[i].isActive)
  {
    match FirstWhere(cvs, (c: Cv) => c.userId == userId && c.isActive)
    case None => None
    case Some(i) => Some(cvs[i])
  }

  /** Setting `is_active` on the user's CV: only that flag of that one row
      changes, and `None` comes back when the user owns no such CV. */
  function SetActive(cvs: seq<Cv>, cvId: string, userId: string, active: bool): (r: (seq<Cv>, Option<Cv>))
    ensures r.1.None? <==> !Owns(cvs, cvId, userId)
    ensures r.1.None? ==> r.0 == cvs
    ensures |r.0| == |cvs|
    ensures forall i :: 0 <= i < |cvs| ==> r.0[i] == cvs[i].(isActive := r.0[i].isActive)
    ensures forall i :: 0 <= i < |cvs| && r.0[i] != cvs[i] ==> cvs[i].id == cvId && cvs[i].userId == userId
    ensures r.1.Some? ==> r.1.value in r.0 && r.1.value.id == cvId && r.1.value.userId == userId
                          && r.1.value.isActive == active
  {
    match FirstWhere(cvs, (c: Cv) => c.id == cvId && c.userId == userId)
    case None => (cvs, None)
    case Some(i) =>
      var cv := cvs[i].(isActive := active);
      assert cvs[i := cv][i] == cv;
      (cvs[i := cv], Some(cv))
  }

  /** `activate_cv` */
  function ActivateCv(cvs: seq<Cv>, cvId: string, userId: string): (r: (seq<Cv>, Option<Cv>))
    ensures r.1.None? <==> !Owns(cvs, cvId, userId)
    ensures r.1.Some? ==> r.1.value.isActive && r.1.value in r.0
  {
    SetActive(cvs, cvId, userId, true)
  }

  /** `deactivate_cv` */
  function DeactivateCv(cvs: seq<Cv>, cvId: string, userId: string): (r: (seq<Cv>, Option<Cv>))
    ensures r.1.None? <==> !Owns(cvs, cvId, userId)
    ensures r.1.Some? ==> !r.1.value.isActive && r.1.value in r.0
  {
    SetActive(cvs, cvId, userId, false)
  }

  /** The last of two flag changes decides: activating and then
      deactivating a CV is the same as deactivating it, and vice versa. */
  lemma SetActiveLastWins(cvs: seq<Cv>, cvId: string, userId: string, a: bool, b: bool)
    ensures SetActive(SetActive(cvs, cvId, userId, a).0, cvId, userId, b) == SetActive(cvs, cvId, userId, b)
  {
    var p := (c: Cv) => c.id == cvId && c.userId == userId;
    var once := SetActive(cvs, cvId, userId, a).0;
    match FirstWhere(cvs, p)
    case None =>
    case Some(i) =>
      assert once == cvs[i := cvs[i].(isActive := a)];
      assert forall k :: 0 <= k < i ==> once[k] == cvs[k];
      assert FirstWhere(once, p) == Some(i);
      assert once[i := once[i].(isActive := b)] == cvs[i := cvs[i].(isActive := b)];
  }

  /** The CV and CV-skill tables after a deletion, and whether a CV was
      deleted or the error of the refused commit. */
  datatype Deletion = Deletion(cvs: seq<Cv>, cvSkills: seq<CvSkill>, result: Outcome<bool>)

  /** `delete_cv`: removes the user's CV. Deleting the row also deletes its
      rows of the `cv_skills` association. Its job matches are not deleted
      but get a NULL `cv_id`, which the NOT NULL column refuses, so then
      the commit fails with the database's error `dbError` and nothing is
      deleted. */
  function DeleteCv(cvs: seq<Cv>, cvSkills: seq<CvSkill>, matches: seq<JobMatch>, cvId: string, userId: string,
                    dbError: string): (r: Deletion)
    ensures r.result == Ok(false) <==> !Owns(cvs, cvId, userId)
    ensures r.result.Raise? <==> Owns(cvs, cvId, userId) && HasMatches(matches, cvId)
    ensures r.result.Raise? ==> r.result.msg == dbError
    ensures r.result != Ok(true) ==> r.cvs == cvs && r.cvSkills == cvSkills
    ensures r.result == Ok(true) ==>
      && (exists i :: 0 <= i < |cvs| && cvs[i].id == cvId && cvs[i].userId == userId
                      && r.cvs == cvs[..i] + cvs[i + 1..])
      && forall x :: x in r.cvSkills <==> x in cvSkills && x.cvId != cvId
  {
    match FirstWhere(cvs, (c: Cv) => c.id == cvId && c.userId == userId)
    case None => Deletion(cvs, cvSkills, Ok(false))
    case Some(i) =>
      if HasMatches(matches, cvId) then Deletion(cvs, cvSkills, Raise(dbError))
      else Deletion(cvs[..i] + cvs[i + 1..], Filter(cvSkills, (x: CvSkill) => x.cvId != cvId), Ok(true))
  }

  /** Deleting a CV never removes another user's CV, nor another CV's
      skills. */
  lemma DeleteCvKeepsOtherUsersCvs(cvs: seq<Cv>, cvSkills: seq<CvSkill>, matches: seq<JobMatch>, cvId: string,
                                   userId: string, dbError: string, c: Cv)
    requires c in cvs && c.userId != userId
    ensures c in DeleteCv(cvs, cvSkills, matches, cvId, userId, dbError).cvs
    ensures forall x :: x in cvSkills && x.cvId != cvId ==> x in DeleteCv(cvs, cvSkills, matches, cvId, userId, dbError).cvSkills
  {
    var r := DeleteCv(cvs, cvSkills, matches, cvId, userId, dbError);
    if r.result == Ok(true) {
      var i :| 0 <= i < |cvs| && cvs[i].id == cvId && cvs[i].userId == userId && r.cvs == cvs[..i] + cvs[i + 1..];
      var k :| 0 <= k < |cvs| && cvs[k] == c;
      if k < i {
        assert r.cvs[k] == c;
      } else {
        assert r.cvs[k - 1] == c;
      }
    }
  }

  // ---------------------------------------------------------------------
  // Text extraction

  const PdfMime: string := "application/pdf"
  const WordMimes: seq<string> := ["application/msword",
                                   "application/vnd.openxmlformats-officedocument.wordprocessingml.document"]

  /** Any failure of extraction surfaces as "Text extraction failed: ...". */
  function Wrapped(o: Outcome<string>): (r: Outcome<string>)
    ensures o.Ok? ==> r == o
    ensures o.Raise? ==> r == Raise("Text extraction failed: " + o.msg)
  {
    match o
    case Ok(_) => o
    case Raise(m) => Raise("Text extraction failed: " + m)
  }

  /** `extract_text_from_cv`: `pdf` and `docx` are what the PDF and Word
      extractors return or raise for the file. */
  function ExtractTextFromCv(mime: string, pdf: Outcome<string>, docx: Outcome<string>): (r: Outcome<string>)
    ensures mime == PdfMime ==> r == Wrapped(pdf)
    ensures mime in WordMimes ==> r == Wrapped(docx)
    ensures mime != PdfMime && mime !in WordMimes ==>
      r == Raise("Text extraction failed: Unsupported file type: " + mime)
  {
    if mime == PdfMime then Wrapped(pdf)
    else if mime in WordMimes then Wrapped(docx)
    else Wrapped(Raise("Unsupported file type: " + mime))
  }

  /** Extraction either returns an extractor's text or raises a message
      starting "Text extraction failed: ". */
  lemma ExtractionFailuresAreWrapped(mime: string, pdf: Outcome<string>, docx: Outcome<string>)
    ensures var r := ExtractTextFromCv(mime, pdf, docx);
      && (r.Ok? ==> r == pdf || r == docx)
      && (r.Raise? ==> exists m :: r.msg == "Text extraction failed: " + m)
  {
  }

  // ---------------------------------------------------------------------
  // Skills of a CV

  function SkillName(s: Skill): string {
    s.name
  }

  /** The key of the `cv_skills` table. */
  function PairKey(r: CvSkill): (string, string) {
    (r.cvId, r.skillId)
  }

  /** The table holds a row for the CV and skill. */
  predicate Paired(cvSkills: seq<CvSkill>, cvId: string, skillId: string) {
    exists i :: 0 <= i < |cvSkills| && PairKey(cvSkills[i]) == (cvId, skillId)
  }

  /** One dict of the lists `extract_and_save_skills` and `get_cv_skills`
      return: a CV-skill row's skill id, level and years with its skill's
      name and category. The dict's `id`, the row's own id, is not part of
      the model. */
  datatype SkillEntry = SkillEntry(skillId: string, name: string, category: Json, level: Json, years: Json)

  /** The dict for a CV-skill row joined with its skill. */
  function EntryOf(row: CvSkill, skill: Skill): SkillEntry {
    SkillEntry(row.skillId, skill.name, skill.category, row.level, row.years)
  }

  /** Some skill has this id. */
  predicate HasSkillId(skills: seq<Skill>, id: string) {
    exists k :: 0 <= k < |skills| && skills[k].id == id
  }

  /** `skills[k]` is the skill a lookup by this id finds. */
  predicate FirstWithId(skills: seq<Skill>, k: int, id: string) {
    0 <= k < |skills| && skills[k].id == id && forall j :: 0 <= j < k ==> skills[j].id != id
  }

  lemma FirstWithIdUnique(skills: seq<Skill>, k: int, k': int, id: string)
    requires FirstWithId(skills, k, id) && FirstWithId(skills, k', id)
    ensures k == k'
  {
  }

  /** The skill and CV-skill tables after an extraction, its list, and
      whether the loop ended on an insert the database refused, which
      leaves the session needing a rollback. */
  datatype Extraction = Extraction(skills: seq<Skill>, cvSkills: seq<CvSkill>, extracted: seq<SkillEntry>,
                                   refused: bool)

  /** `skill_data.get("name", "").lower().strip()`, which raises when the
      name is not a string. */
  function NormalisedName(item: JsonObject): (r: Outcome<string>)
    ensures "name" !in item ==> r == Ok("")
    ensures r.Ok? <==> Get(item, "name", JStr("")).JStr?
    ensures r.Ok? ==> r.value == Strip(Lower(Get(item, "name", JStr("")).s))
  {
    var name := Get(item, "name", JStr(""));
    if name.JStr? then Ok(Strip(Lower(name.s)))
    else Raise("'" + TypeName(name) + "' object has no attribute 'lower'")
  }

  /** What one skill entry does: nothing (a blank name), stop the loop with
      the skills committed so far (`refused` when the database refused an
      insert, rather than Python raising on the entry), or add a CV row. */
  datatype Step =
    | Skip
    | Stop(skills: seq<Skill>, refused: bool)
    | Add(skills: seq<Skill>, row: CvSkill, entry: SkillEntry)

  /** Some skill in `skills` has this id and name. */
  predicate HasSkill(skills: seq<Skill>, id: string, name: string) {
    exists k :: 0 <= k < |skills| && skills[k].id == id && skills[k].name == name
  }

  /** The filter `Skill.name == name`. */
  function NamedAs(name: string): Skill -> bool {
    (s: Skill) => s.name == name
  }

  /** The first skill named `name` has id `id`: the skill a lookup by
      name finds. */
  predicate FirstNamed(skills: seq<Skill>, id: string, name: string) {
    exists k :: 0 <= k < |skills| && skills[k].id == id && skills[k].name == name
                && forall j :: 0 <= j < k ==> skills[j].name != name
  }

  /** Find the skill by its normalised name, or create it: the skill table
      afterwards and the skill, or None when the database refuses the new
      skill (a null category, or no id given). */
  function FindOrCreateSkill(skills: seq<Skill>, name: string, category: Json, skillIds: NewIds<string>)
    : (r: Option<(seq<Skill>, Skill)>)
    ensures r.None? <==> !(exists k :: 0 <= k < |skills| && skills[k].name == name)
                         && (category == JNull || skillIds.Unassigned?)
    ensures r.Some? ==> skills <= r.value.0 && |r.value.0| <= |skills| + 1
    ensures r.Some? ==> FirstNamed(r.value.0, r.value.1.id, name) && r.value.1 in r.value.0
    ensures r.Some? && UniqueBy(skills, SkillName) ==> UniqueBy(r.value.0, SkillName)
    ensures r.Some? && skillIds.Unassigned? ==> r.value.0 == skills
  {
    var found := FirstWhere(skills, NamedAs(name));
    if found.None? && (category == JNull || skillIds.Unassigned?) then
      assert !(exists k :: 0 <= k < |skills| && skills[k].name == name) by {
        assert forall k :: 0 <= k < |skills| ==> !NamedAs(name)(skills[k]);
      }
      None
    else if found.Some? then
      var k := found.value;
      assert FirstNamed(skills, skills[k].id, name) by {
        assert forall j :: 0 <= j < k ==> !NamedAs(name)(skills[j]);
      }
      Some((skills, skills[k]))
    else
      var skill := Skill(skillIds.idOf(name), name, category, "Skill: " + name);
      var skills' := skills + [skill];
      assert skills'[|skills|] == skill;
      assert FirstNamed(skills', skill.id, name) by {
        assert forall j :: 0 <= j < |skills| ==> skills'[j] == skills[j] && !NamedAs(name)(skills[j]);
      }
      assert UniqueBy(skills, SkillName) ==> UniqueBy(skills', SkillName) by {
        if UniqueBy(skills, SkillName) {
          AppendKeepsUnique(skills, skill, SkillName);
        }
      }
      Some((skills', skill))
  }

  /** One pass of the loop in `extract_and_save_skills`. An entry with a
      blank name is skipped. The loop ends, keeping what was committed, on an
      entry that is not an object or whose name is not a string; and on an
      insert the database refuses: a new skill whose category is null (the
      column is required) or that is given no id, and a second row for the
      same CV and skill (the table's key). Otherwise the skill is found by
      its normalised name or created, and the CV row takes the entry's level
      (1 by default) and years. */
  function EntryStep(skills: seq<Skill>, cvSkills: seq<CvSkill>, cvId: string, item: Json, skillIds: NewIds<string>)
    : (r: Step)
    ensures r.Stop? || r.Add? ==> skills <= r.skills && |r.skills| <= |skills| + 1
    ensures r.Stop? || r.Add? ==> (UniqueBy(skills, SkillName) ==> UniqueBy(r.skills, SkillName))
    ensures skillIds.Unassigned? && (r.Stop? || r.Add?) ==> r.skills == skills
    ensures r.Skip? <==> item.JObj? && NormalisedName(item.fields) == Ok("")
    ensures r.Stop? && !r.refused <==> !item.JObj? || NormalisedName(item.fields).Raise?
    ensures r.Add? ==>
      && item.JObj? && NormalisedName(item.fields) == Ok(r.entry.name) && r.entry.name != ""
      && r.row == CvSkill(cvId, r.entry.skillId, r.entry.level, r.entry.years)
      && r.entry.level == Get(item.fields, "level", JNum(1)) && r.entry.years == Get(item.fields, "years", JNull)
      && !Paired(cvSkills, cvId, r.entry.skillId)
      && FirstNamed(r.skills, r.entry.skillId, r.entry.name)
  {
    if !item.JObj? then Stop(skills, false)
    else
      match NormalisedName(item.fields)
      case Raise(_) => Stop(skills, false)
      case Ok(name) =>
        if name == "" then Skip
        else
          var category := Get(item.fields, "category", JStr("Technical"));
          match FindOrCreateSkill(skills, name, category, skillIds)
          case None => Stop(skills, true)
          case Some((skills', skill)) =>
            if Paired(cvSkills, cvId, skill.id) then Stop(skills', true)
            else
              var level := Get(item.fields, "level", JNum(1));
              var years := Get(item.fields, "years", JNull);
              Add(skills', CvSkill(cvId, skill.id, level, years), SkillEntry(skill.id, name, skill.category, level, years))
  }

  /** A CV row and skill, once added, stay in tables that only grow. */
  lemma AddedEntryStays(s: seq<Skill>, cvSkills: seq<CvSkill>, cvId: string, row: CvSkill, e: SkillEntry,
                        later: Extraction)
    requires s <= later.skills && cvSkills + [row] <= later.cvSkills
    requires PairKey(row) == (cvId, e.skillId) && FirstNamed(s, e.skillId, e.name)
    ensures Paired(later.cvSkills, cvId, e.skillId) && HasSkill(later.skills, e.skillId, e.name)
  {
    assert later.cvSkills[|cvSkills|] == row;
    var k :| 0 <= k < |s| && s[k].id == e.skillId && s[k].name == e.name
             && forall j :: 0 <= j < k ==> s[j].name != e.name;
    assert later.skills[k] == s[k];
  }

  /** The loop over the analysis's skill entries. */
  function ExtractFrom(skills: seq<Skill>, cvSkills: seq<CvSkill>, cvId: string, items: seq<Json>,
                       skillIds: NewIds<string>)
    : (r: Extraction)
    ensures skills <= r.skills && cvSkills <= r.cvSkills
    ensures skillIds.Unassigned? ==> r.skills == skills
    ensures |r.extracted| <= |items|
    ensures forall e :: e in r.extracted ==>
      e.name != "" && Paired(r.cvSkills, cvId, e.skillId) && HasSkill(r.skills, e.skillId, e.name)
    decreases |items|
  {
    if |items| == 0 then Extraction(skills, cvSkills, [], false)
    else
      match EntryStep(skills, cvSkills, cvId, items[0], skillIds)
      case Skip => ExtractFrom(skills, cvSkills, cvId, items[1..], skillIds)
      case Stop(s, refused) => Extraction(s, cvSkills, [], refused)
      case Add(s, row, e) =>
        var rest := ExtractFrom(s, cvSkills + [row], cvId, items[1..], skillIds);
        AddedEntryStays(s, cvSkills, cvId, row, e, rest);
        Extraction(rest.skills, rest.cvSkills, [e] + rest.extracted, rest.refused)
  }

  /** `extract_and_save_skills`: only a list under "skills" yields entries;
      any other value either cannot be iterated, which the method swallows,
      or yields items that fail on their first `.get`. */
  function ExtractAndSaveSkills(skills: seq<Skill>, cvSkills: seq<CvSkill>, cvId: string, analysis: JsonObject,
                                skillIds: NewIds<string>)
    : (r: Extraction)
    ensures !Get(analysis, "skills", JArr([])).JArr? ==> r == Extraction(skills, cvSkills, [], false)
    ensures skills <= r.skills && cvSkills <= r.cvSkills
    ensures forall e :: e in r.extracted ==> e.name != "" && Paired(r.cvSkills, cvId, e.skillId)
  {
    var entries := Get(analysis, "skills", JArr([]));
    if entries.JArr? then ExtractFrom(skills, cvSkills, cvId, entries.items, skillIds)
    else Extraction(skills, cvSkills, [], false)
  }

  /** Extraction keeps skill names unique: a name already stored is
      reused, never added again. */
  lemma {:induction false} ExtractFromKeepsSkillNamesUnique(skills: seq<Skill>, cvSkills: seq<CvSkill>, cvId: string,
                                                            items: seq<Json>, skillIds: NewIds<string>)
    requires UniqueBy(skills, SkillName)
    ensures UniqueBy(ExtractFrom(skills, cvSkills, cvId, items, skillIds).skills, SkillName)
    decreases |items|
  {
    if |items| > 0 {
      match EntryStep(skills, cvSkills, cvId, items[0], skillIds)
      case Skip => ExtractFromKeepsSkillNamesUnique(skills, cvSkills, cvId, items[1..], skillIds);
      case Stop(_, _) =>
      case Add(s, row, e) => ExtractFromKeepsSkillNamesUnique(s, cvSkills + [row], cvId, items[1..], skillIds);
    }
  }

  /** Extraction never stores two rows for one CV and skill. */
  lemma {:induction false} ExtractFromKeepsPairsUnique(skills: seq<Skill>, cvSkills: seq<CvSkill>, cvId: string,
                                                       items: seq<Json>, skillIds: NewIds<string>)
    requires UniqueBy(cvSkills, PairKey)
    ensures UniqueBy(ExtractFrom(skills, cvSkills, cvId, items, skillIds).cvSkills, PairKey)
    decreases |items|
  {
    if |items| > 0 {
      match EntryStep(skills, cvSkills, cvId, items[0], skillIds)
      case Skip => ExtractFromKeepsPairsUnique(skills, cvSkills, cvId, items[1..], skillIds);
      case Stop(_, _) =>
      case Add(s, row, e) =>
        AppendKeepsUnique(cvSkills, row, PairKey);
        ExtractFromKeepsPairsUnique(s, cvSkills + [row], cvId, items[1..], skillIds);
    }
  }

  /** Entries whose names are blank after normalising are all skipped. */
  lemma {:induction false} BlankNamesAreSkipped(skills: seq<Skill>, cvSkills: seq<CvSkill>, cvId: string,
                                                items: seq<Json>, skillIds: NewIds<string>)
    requires forall i :: 0 <= i < |items| ==> items[i].JObj? && NormalisedName(items[i].fields) == Ok("")
    ensures ExtractFrom(skills, cvSkills, cvId, items, skillIds) == Extraction(skills, cvSkills, [], false)
    decreases |items|
  {
    if |items| > 0 {
      BlankNamesAreSkipped(skills, cvSkills, cvId, items[1..], skillIds);
    }
  }

  /** An entry naming a skill the CV already has a row for ends the loop. */
  lemma KnownPairStops(s: seq<Skill>, rows: seq<CvSkill>, cvId: string, b: JsonObject, id: string, name: string,
                       skillIds: NewIds<string>)
    requires NormalisedName(b) == Ok(name) && name != ""
    requires FirstNamed(s, id, name) && Paired(rows, cvId, id)
    ensures EntryStep(s, rows, cvId, JObj(b), skillIds) == Stop(s, true)
  {
    var k :| 0 <= k < |s| && s[k].id == id && s[k].name == name
             && forall j :: 0 <= j < k ==> s[j].name != name;
    assert forall j :: 0 <= j < k ==> !NamedAs(name)(s[j]);
    FirstWhereFinds(s, NamedAs(name), k);
  }

  /** Two entries that normalise to the same name: the second finds the
      skill the first used and stops on the CV row the first added, so the
      table gains at most one skill and exactly one CV row. */
  lemma RepeatedNameReusesOneSkill(skills: seq<Skill>, cvSkills: seq<CvSkill>, cvId: string,
                                   a: JsonObject, b: JsonObject, skillIds: NewIds<string>)
    requires NormalisedName(a) == NormalisedName(b)
    requires EntryStep(skills, cvSkills, cvId, JObj(a), skillIds).Add?
    ensures var r := ExtractFrom(skills, cvSkills, cvId, [JObj(a), JObj(b)], skillIds);
      && |r.skills| <= |skills| + 1
      && |r.cvSkills| == |cvSkills| + 1
      && |r.extracted| == 1
  {
    var first := EntryStep(skills, cvSkills, cvId, JObj(a), skillIds);
    var rows := cvSkills + [first.row];
    assert rows[|cvSkills|] == first.row;
    KnownPairStops(first.skills, rows, cvId, b, first.entry.skillId, first.entry.name, skillIds);
    assert [JObj(a), JObj(b)][1..] == [JObj(b)];
    assert ExtractFrom(first.skills, rows, cvId, [JObj(b)], skillIds) == Extraction(first.skills, rows, [], true);
  }

  /** With no id for a new skill, the first entry naming a skill not yet
      stored ends the loop on the refused insert, committing nothing. */
  lemma UnassignedIdStopsAtNewSkill(skills: seq<Skill>, cvSkills: seq<CvSkill>, cvId: string, b: JsonObject,
                                    rest: seq<Json>, dbError: string)
    requires NormalisedName(b).Ok? && NormalisedName(b).value != ""
    requires forall k :: 0 <= k < |skills| ==> skills[k].name != NormalisedName(b).value
    ensures ExtractFrom(skills, cvSkills, cvId, [JObj(b)] + rest, Unassigned(dbError))
         == Extraction(skills, cvSkills, [], true)
  {
    var name := NormalisedName(b).value;
    assert forall k :: 0 <= k < |skills| ==> !NamedAs(name)(skills[k]);
    assert ([JObj(b)] + rest)[0] == JObj(b);
  }

  /** `add_cv_skill`: for a CV the user owns and a known skill, the CV's
      row for the skill is updated in place or created. */
  function AddCvSkill(cvs: seq<Cv>, skills: seq<Skill>, cvSkills: seq<CvSkill>, cvId: string, userId: string,
                      skillId: string, level: Json, years: Json)
    : (r: (seq<CvSkill>, Option<CvSkill>))
    ensures r.1.None? <==> !Owns(cvs, cvId, userId) || !(exists k :: 0 <= k < |skills| && skills[k].id == skillId)
    ensures r.1.None? ==> r.0 == cvSkills
    ensures r.1.Some? ==> r.1.value == CvSkill(cvId, skillId, level, years) && r.1.value in r.0
    ensures r.1.Some? && Paired(cvSkills, cvId, skillId) ==>
      exists i :: 0 <= i < |cvSkills| && PairKey(cvSkills[i]) == (cvId, skillId) && r.0 == cvSkills[i := r.1.value]
    ensures r.1.Some? && !Paired(cvSkills, cvId, skillId) ==> r.0 == cvSkills + [r.1.value]
  {
    if GetCv(cvs, cvId, userId).None? then (cvSkills, None)
    else if FirstWhere(skills, (s: Skill) => s.id == skillId).None? then (cvSkills, None)
    else
      var row := CvSkill(cvId, skillId, level, years);
      match FirstWhere(cvSkills, (x: CvSkill) => PairKey(x) == (cvId, skillId))
      case Some(i) =>
        assert cvSkills[i := row][i] == row;
        (cvSkills[i := row], Some(row))
      case None => (cvSkills + [row], Some(row))
  }

  lemma AddCvSkillKeepsPairsUnique(cvs: seq<Cv>, skills: seq<Skill>, cvSkills: seq<CvSkill>, cvId: string,
                                   userId: string, skillId: string, level: Json, years: Json)
    requires UniqueBy(cvSkills, PairKey)
    ensures UniqueBy(AddCvSkill(cvs, skills, cvSkills, cvId, userId, skillId, level, years).0, PairKey)
  {
    var r := AddCvSkill(cvs, skills, cvSkills, cvId, userId, skillId, level, years);
    if r.1.Some? {
      if Paired(cvSkills, cvId, skillId) {
        var i :| 0 <= i < |cvSkills| && PairKey(cvSkills[i]) == (cvId, skillId) && r.0 == cvSkills[i := r.1.value];
        ReplaceKeepsUnique(cvSkills, i, r.1.value, PairKey);
      } else {
        AppendKeepsUnique(cvSkills, r.1.value, PairKey);
      }
    }
  }

  /** `remove_cv_skill`: deletes the CV's row for the skill, if the user
      owns the CV and the row exists. */
  function RemoveCvSkill(cvs: seq<Cv>, cvSkills: seq<CvSkill>, cvId: string, userId: string, skillId: string)
    : (r: (seq<CvSkill>, bool))
    ensures r.1 <==> Owns(cvs, cvId, userId) && Paired(cvSkills, cvId, skillId)
    ensures !r.1 ==> r.0 == cvSkills
    ensures r.1 ==> exists i :: 0 <= i < |cvSkills| && PairKey(cvSkills[i]) == (cvId, skillId)
                                && r.0 == cvSkills[..i] + cvSkills[i + 1..]
  {
    if GetCv(cvs, cvId, userId).None? then (cvSkills, false)
    else
      match FirstWhere(cvSkills, (x: CvSkill) => PairKey(x) == (cvId, skillId))
      case None => (cvSkills, false)
      case Some(i) => (cvSkills[..i] + cvSkills[i + 1..], true)
  }

  /** With one row per pair, removing a CV's skill leaves no row for it. */
  lemma RemoveCvSkillLeavesNoPair(cvs: seq<Cv>, cvSkills: seq<CvSkill>, cvId: string, userId: string, skillId: string)
    requires UniqueBy(cvSkills, PairKey)
    requires RemoveCvSkill(cvs, cvSkills, cvId, userId, skillId).1
    ensures !Paired(RemoveCvSkill(cvs, cvSkills, cvId, userId, skillId).0, cvId, skillId)
  {
    var r := RemoveCvSkill(cvs, cvSkills, cvId, userId, skillId);
    var i :| 0 <= i < |cvSkills| && PairKey(cvSkills[i]) == (cvId, skillId) && r.0 == cvSkills[..i] + cvSkills[i + 1..];
    forall k | 0 <= k < |r.0|
      ensures PairKey(r.0[k]) != (cvId, skillId)
    {
      if k < i {
        assert r.0[k] == cvSkills[k];
      } else {
        assert r.0[k] == cvSkills[k + 1];
      }
    }
  }

  /** Removing a skill just added to a CV restores the table. */
  lemma AddThenRemoveRestores(cvs: seq<Cv>, skills: seq<Skill>, cvSkills: seq<CvSkill>, cvId: string, userId: string,
                              skillId: string, level: Json, years: Json)
    requires Owns(cvs, cvId, userId) && exists k :: 0 <= k < |skills| && skills[k].id == skillId
    requires !Paired(cvSkills, cvId, skillId)
    ensures RemoveCvSkill(cvs, AddCvSkill(cvs, skills, cvSkills, cvId, userId, skillId, level, years).0,
                          cvId, userId, skillId)
         == (cvSkills, true)
  {
    var added := AddCvSkill(cvs, skills, cvSkills, cvId, userId, skillId, level, years).0;
    var row := CvSkill(cvId, skillId, level, years);
    assert added == cvSkills + [row];
    assert forall k :: 0 <= k < |cvSkills| ==> added[k] == cvSkills[k];
    assert FirstWhere(added, (x: CvSkill) => PairKey(x) == (cvId, skillId)) == Some(|cvSkills|);
    assert added[..|cvSkills|] + added[|cvSkills| + 1..] == cvSkills;
  }

  /** The error of `skill.skill.name` on a row whose skill is missing. */
  const NoSkillText: string := "'NoneType' object has no attribute 'name'"

  /** The dicts for CV-skill rows, in order, each joined with its skill
      through the `skill` relationship; a row whose skill is missing raises. */
  function JoinSkills(skills: seq<Skill>, rows: seq<CvSkill>): (r: Outcome<seq<SkillEntry>>)
    ensures r.Ok? <==> forall i :: 0 <= i < |rows| ==> HasSkillId(skills, rows[i].skillId)
    ensures r.Raise? ==> r.msg == NoSkillText
    ensures r.Ok? ==> |r.value| == |rows|
    ensures r.Ok? ==> forall i :: 0 <= i < |rows| ==>
      exists k :: FirstWithId(skills, k, rows[i].skillId) && r.value[i] == EntryOf(rows[i], skills[k])
    decreases |rows|
  {
    if |rows| == 0 then Ok([])
    else
      match FirstWhere(skills, (x: Skill) => x.id == rows[0].skillId)
      case None =>
        assert !HasSkillId(skills, rows[0].skillId);
        Raise(NoSkillText)
      case Some(k) =>
        var rest := JoinSkills(skills, rows[1..]);
        JoinedPrepend(skills, rows, k, rest);
        if rest.Raise? then rest
        else Ok([EntryOf(rows[0], skills[k])] + rest.value)
  }

  /** The step of `JoinSkills`: joining the first row with its skill in
      front of the joined remaining rows. */
  lemma JoinedPrepend(skills: seq<Skill>, rows: seq<CvSkill>, k: int, rest: Outcome<seq<SkillEntry>>)
    requires |rows| > 0 && 0 <= k < |skills| && skills[k].id == rows[0].skillId
    requires forall j :: 0 <= j < k ==> skills[j].id != rows[0].skillId
    requires rest.Ok? <==> forall i :: 0 <= i < |rows| - 1 ==> HasSkillId(skills, rows[1..][i].skillId)
    requires rest.Ok? ==> |rest.value| == |rows| - 1
    requires rest.Ok? ==> forall i :: 0 <= i < |rows| - 1 ==>
      exists k' :: FirstWithId(skills, k', rows[1..][i].skillId) && rest.value[i] == EntryOf(rows[1..][i], skills[k'])
    ensures rest.Ok? <==> forall i :: 0 <= i < |rows| ==> HasSkillId(skills, rows[i].skillId)
    ensures rest.Ok? ==> forall i :: 0 <= i < |rows| ==>
      exists k' :: FirstWithId(skills, k', rows[i].skillId)
                   && ([EntryOf(rows[0], skills[k])] + rest.value)[i] == EntryOf(rows[i], skills[k'])
  {
    assert FirstWithId(skills, k, rows[0].skillId);
    assert forall i :: 1 <= i < |rows| ==> rows[i] == rows[1..][i - 1];
    if rest.Ok? {
      var r := [EntryOf(rows[0], skills[k])] + rest.value;
      forall i | 0 <= i < |rows|
        ensures exists k' :: FirstWithId(skills, k', rows[i].skillId) && r[i] == EntryOf(rows[i], skills[k'])
      {
        if i == 0 {
          assert r[0] == EntryOf(rows[0], skills[k]);
        } else {
          assert r[i] == rest.value[i - 1];
        }
      }
    }
  }

  /** Some row of the CV refers to a skill that does not exist. */
  predicate MissingSkill(skills: seq<Skill>, cvSkills: seq<CvSkill>, cvId: string) {
    exists i :: 0 <= i < |cvSkills| && cvSkills[i].cvId == cvId && !HasSkillId(skills, cvSkills[i].skillId)
  }

  /** The query `CVSkill.cv_id == cv_id`. */
  function CvRows(cvSkills: seq<CvSkill>, cvId: string): seq<CvSkill> {
    Filter(cvSkills, (x: CvSkill) => x.cvId == cvId)
  }

  lemma JoinCvRowsFails(skills: seq<Skill>, cvSkills: seq<CvSkill>, cvId: string)
    ensures JoinSkills(skills, CvRows(cvSkills, cvId)).Raise? <==> MissingSkill(skills, cvSkills, cvId)
  {
    var rows := CvRows(cvSkills, cvId);
    if JoinSkills(skills, rows).Raise? {
      var j :| 0 <= j < |rows| && !HasSkillId(skills, rows[j].skillId);
      var i :| 0 <= i < |cvSkills| && cvSkills[i] == rows[j];
    }
    if MissingSkill(skills, cvSkills, cvId) {
      var i :| 0 <= i < |cvSkills| && cvSkills[i].cvId == cvId && !HasSkillId(skills, cvSkills[i].skillId);
      var j :| 0 <= j < |rows| && rows[j] == cvSkills[i];
    }
  }

  lemma JoinCvRowsSound(skills: seq<Skill>, cvSkills: seq<CvSkill>, cvId: string)
    requires !MissingSkill(skills, cvSkills, cvId)
    ensures var r := JoinSkills(skills, CvRows(cvSkills, cvId));
      r.Ok? && forall e :: e in r.value ==>
        exists i, k :: 0 <= i < |cvSkills| && cvSkills[i].cvId == cvId && FirstWithId(skills, k, cvSkills[i].skillId)
                       && e == EntryOf(cvSkills[i], skills[k])
  {
    JoinCvRowsFails(skills, cvSkills, cvId);
    var rows := CvRows(cvSkills, cvId);
    var r := JoinSkills(skills, rows).value;
    forall e | e in r
      ensures exists i, k :: 0 <= i < |cvSkills| && cvSkills[i].cvId == cvId
                             && FirstWithId(skills, k, cvSkills[i].skillId) && e == EntryOf(cvSkills[i], skills[k])
    {
      var j :| 0 <= j < |r| && r[j] == e;
      var k :| FirstWithId(skills, k, rows[j].skillId) && r[j] == EntryOf(rows[j], skills[k]);
      var i :| 0 <= i < |cvSkills| && cvSkills[i] == rows[j];
    }
  }

  lemma JoinCvRowsComplete(skills: seq<Skill>, cvSkills: seq<CvSkill>, cvId: string, i: int, k: int)
    requires !MissingSkill(skills, cvSkills, cvId)
    requires 0 <= i < |cvSkills| && cvSkills[i].cvId == cvId && FirstWithId(skills, k, cvSkills[i].skillId)
    ensures var r := JoinSkills(skills, CvRows(cvSkills, cvId)); r.Ok? && EntryOf(cvSkills[i], skills[k]) in r.value
  {
    JoinCvRowsFails(skills, cvSkills, cvId);
    var rows := CvRows(cvSkills, cvId);
    var r := JoinSkills(skills, rows).value;
    var j :| 0 <= j < |rows| && rows[j] == cvSkills[i];
    var k' :| FirstWithId(skills, k', rows[j].skillId) && r[j] == EntryOf(rows[j], skills[k']);
    FirstWithIdUnique(skills, k, k', rows[j].skillId);
  }

  /** `get_cv_skills`: the CV's skill dicts, or none when the user does not
      own the CV. */
  function GetCvSkills(cvs: seq<Cv>, skills: seq<Skill>, cvSkills: seq<CvSkill>, cvId: string, userId: string)
    : (r: Outcome<seq<SkillEntry>>)
    ensures !Owns(cvs, cvId, userId) ==> r == Ok([])
    ensures r.Raise? <==> Owns(cvs, cvId, userId) && MissingSkill(skills, cvSkills, cvId)
    ensures r.Raise? ==> r.msg == NoSkillText
    ensures r.Ok? ==> forall e :: e in r.value ==>
      exists i, k :: 0 <= i < |cvSkills| && cvSkills[i].cvId == cvId && FirstWithId(skills, k, cvSkills[i].skillId)
                     && e == EntryOf(cvSkills[i], skills[k])
    ensures r.Ok? && Owns(cvs, cvId, userId) ==>
      forall i, k :: 0 <= i < |cvSkills| && cvSkills[i].cvId == cvId && FirstWithId(skills, k, cvSkills[i].skillId)
                     ==> EntryOf(cvSkills[i], skills[k]) in r.value
  {
    if GetCv(cvs, cvId, userId).None? then Ok([])
    else
      JoinCvRowsFails(skills, cvSkills, cvId);
      var r := JoinSkills(skills, CvRows(cvSkills, cvId));
      assert r.Ok? ==> forall e :: e in r.value ==>
        exists i, k :: 0 <= i < |cvSkills| && cvSkills[i].cvId == cvId && FirstWithId(skills, k, cvSkills[i].skillId)
                       && e == EntryOf(cvSkills[i], skills[k]) by {
        if r.Ok? {
          JoinCvRowsSound(skills, cvSkills, cvId);
        }
      }
      assert r.Ok? ==> forall i, k :: 0 <= i < |cvSkills| && cvSkills[i].cvId == cvId
                                      && FirstWithId(skills, k, cvSkills[i].skillId)
                                      ==> EntryOf(cvSkills[i], skills[k]) in r.value by {
        forall i, k | r.Ok? && 0 <= i < |cvSkills| && cvSkills[i].cvId == cvId && FirstWithId(skills, k, cvSkills[i].skillId)
          ensures EntryOf(cvSkills[i], skills[k]) in r.value
        {
          JoinCvRowsComplete(skills, cvSkills, cvId, i, k);
        }
      }
      r
  }

  // ---------------------------------------------------------------------
  // Processing an upload

  /** The row the ORM is asked to insert; a `None` column is NULL. */
  datatype CvInsert = CvInsert(
    id: Option<string>,
    userId: string,
    fileName: string,
    filePath: Option<string>,
    fileSize: Option<int>,
    mimeType: Option<string>,
    extractedText: string,
    parsedData: JsonObject,
    createdAt: int)

  /** Inserting a CV: NULL in a required column or a second row with the
      same id is refused by the database with `dbError`; a new CV starts
      active. */
  function InsertCv(cvs: seq<Cv>, row: CvInsert, dbError: string): (r: Outcome<seq<Cv>>)
    ensures r.Ok? <==> row.id.Some? && row.filePath.Some? && row.fileSize.Some? && row.mimeType.Some?
                       && forall i :: 0 <= i < |cvs| ==> cvs[i].id != row.id.value
    ensures r.Raise? ==> r.msg == dbError
    ensures r.Ok? ==> r.value == cvs + [Cv(row.id.value, row.userId, row.fileName, row.filePath.value,
                                            row.fileSize.value, row.mimeType.value, Some(row.extractedText),
                                            Some(row.parsedData), true, row.createdAt)]
  {
    if row.id.None? || row.filePath.None? || row.fileSize.None? || row.mimeType.None? then Raise(dbError)
    else if FirstWhere(cvs, (c: Cv) => c.id == row.id.value).Some? then Raise(dbError)
    else
      Ok(cvs + [Cv(row.id.value, row.userId, row.fileName, row.filePath.value, row.fileSize.value,
                   row.mimeType.value, Some(row.extractedText), Some(row.parsedData), true, row.createdAt)])
  }

  /** How `process_cv` builds the CV row. As written it goes through
      `CVCreate`, which declares only the file name, text and analysis, so
      pydantic drops the path, size and MIME type, and the table supplies
      no id; the intended row carries them all. */
  datatype CvConstruction = AsWritten | Intended

  function CvRow(construction: CvConstruction, cvId: string, userId: string, filePath: string, fileName: string,
                 fileSize: int, mime: string, text: string, analysis: JsonObject, createdAt: int)
    : (r: CvInsert)
    ensures r.userId == userId && r.fileName == fileName && r.extractedText == text && r.parsedData == analysis
    ensures construction == AsWritten ==> r.id.None? && r.filePath.None? && r.fileSize.None? && r.mimeType.None?
    ensures construction == Intended ==>
      r.id == Some(cvId) && r.filePath == Some(filePath) && r.fileSize == Some(fileSize) && r.mimeType == Some(mime)
  {
    match construction
    case AsWritten => CvInsert(None, userId, fileName, None, None, None, text, analysis, createdAt)
    case Intended => CvInsert(Some(cvId), userId, fileName, Some(filePath), Some(fileSize), Some(mime), text,
                              analysis, createdAt)
  }

  /** The tables `process_cv` writes. */
  datatype CvTables = CvTables(cvs: seq<Cv>, skills: seq<Skill>, cvSkills: seq<CvSkill>)

  /** What `process_cv` returns. */
  datatype ProcessedCv = ProcessedCv(cv: Cv, skills: seq<SkillEntry>)

  /** The tables after processing, its result, and whether the uploaded
      file was removed. */
  datatype Processing = Processing(tables: CvTables, result: Outcome<ProcessedCv>, fileRemoved: bool)

  /** `process_cv`'s final update: every other CV of the user is switched
      off; nothing else changes. */
  function DeactivateOthers(cvs: seq<Cv>, userId: string, keepId: string): (r: seq<Cv>)
    ensures |r| == |cvs|
    ensures forall i :: 0 <= i < |cvs| ==>
      r[i] == if cvs[i].userId == userId && cvs[i].id != keepId then cvs[i].(isActive := false) else cvs[i]
  {
    seq(|cvs|, i requires 0 <= i < |cvs| =>
      if cvs[i].userId == userId && cvs[i].id != keepId then cvs[i].(isActive := false) else cvs[i])
  }

  /** `process_cv`: extract the text, analyse it, insert the CV, extract its
      skills and switch off the user's other CVs. A failure before the
      insert commits nothing. When the skill loop ended on a refused insert,
      the error was swallowed but the session still needs a rollback, so
      the final update raises `rollbackError`, after the CV row and the
      skills before the refusal were committed. Every failure removes the
      uploaded file and is raised again. `completion` is the chat model's
      reply about the text; `cvId` is the id of the new row. */
  function ProcessCv(t: CvTables, construction: CvConstruction, userId: string, filePath: string, fileName: string,
                     fileSize: int, mime: string, pdf: Outcome<string>, docx: Outcome<string>,
                     completion: Outcome<string>, parse: AiService.JsonParser, cvId: string, createdAt: int,
                     skillIds: NewIds<string>, dbError: string, rollbackError: string)
    : (r: Processing)
    ensures r.result.Raise? <==> r.fileRemoved
    ensures r.result.Raise? && r.tables != t ==>
      && construction == Intended && r.result.msg == rollbackError
      && |r.tables.cvs| == |t.cvs| + 1 && r.tables.cvs[..|t.cvs|] == t.cvs
      && r.tables.cvs[|t.cvs|].id == cvId && r.tables.cvs[|t.cvs|].userId == userId
      && t.skills <= r.tables.skills && t.cvSkills <= r.tables.cvSkills
    ensures ExtractTextFromCv(mime, pdf, docx).Raise? ==>
      r == Processing(t, Raise(ExtractTextFromCv(mime, pdf, docx).msg), true)
    ensures r.result.Ok? ==>
      && r.result.value.cv.id == cvId && r.result.value.cv.userId == userId && r.result.value.cv.isActive
      && r.result.value.cv.filePath == filePath && r.result.value.cv.mimeType == mime
      && r.result.value.cv.fileName == fileName && r.result.value.cv.fileSize == fileSize
      && r.result.value.cv in r.tables.cvs
      && |r.tables.cvs| == |t.cvs| + 1
  {
    match ExtractTextFromCv(mime, pdf, docx)
    case Raise(m) => Processing(t, Raise(m), true)
    case Ok(text) =>
      var analysis := AiService.AnalyzeCv(completion, parse);
      var row := CvRow(construction, cvId, userId, filePath, fileName, fileSize, mime, text, analysis, createdAt);
      match InsertCv(t.cvs, row, dbError)
      case Raise(m) => Processing(t, Raise(m), true)
      case Ok(cvs) =>
        var cv := cvs[|t.cvs|];
        var x := ExtractAndSaveSkills(t.skills, t.cvSkills, cv.id, analysis, skillIds);
        if x.refused then
          assert cvs[..|t.cvs|] == t.cvs;
          Processing(CvTables(cvs, x.skills, x.cvSkills), Raise(rollbackError), true)
        else
          var final := DeactivateOthers(cvs, userId, cv.id);
          assert final[|t.cvs|] == cv;
          Processing(CvTables(final, x.skills, x.cvSkills), Ok(ProcessedCv(cv, x.extracted)), false)
  }

  /** As written, the insert always lacks required columns, so processing
      raises the database's error, removes the file and changes nothing. */
  lemma AsWrittenProcessingAlwaysFails(t: CvTables, userId: string, filePath: string, fileName: string,
                                       fileSize: int, mime: string, pdf: Outcome<string>, docx: Outcome<string>,
                                       completion: Outcome<string>, parse: AiService.JsonParser, cvId: string,
                                       createdAt: int, skillIds: NewIds<string>, dbError: string, rollbackError: string)
    requires ExtractTextFromCv(mime, pdf, docx).Ok?
    ensures ProcessCv(t, AsWritten, userId, filePath, fileName, fileSize, mime, pdf, docx, completion, parse, cvId,
                      createdAt, skillIds, dbError, rollbackError)
         == Processing(t, Raise(dbError), true)
  {
  }

  /** Once the CV is inserted, processing fails exactly when the skill
      loop ended on a refused insert; the CV row and the skills committed
      before it stay, no other CV is switched off, and the file is removed. */
  lemma RefusedExtractionKeepsCv(t: CvTables, userId: string, filePath: string, fileName: string,
                                 fileSize: int, mime: string, pdf: Outcome<string>, docx: Outcome<string>,
                                 completion: Outcome<string>, parse: AiService.JsonParser, cvId: string,
                                 createdAt: int, skillIds: NewIds<string>, dbError: string, rollbackError: string)
    requires ExtractTextFromCv(mime, pdf, docx).Ok?
    requires forall i :: 0 <= i < |t.cvs| ==> t.cvs[i].id != cvId
    ensures var r := ProcessCv(t, Intended, userId, filePath, fileName, fileSize, mime, pdf, docx, completion, parse,
                               cvId, createdAt, skillIds, dbError, rollbackError);
      var analysis := AiService.AnalyzeCv(completion, parse);
      var x := ExtractAndSaveSkills(t.skills, t.cvSkills, cvId, analysis, skillIds);
      var cv := Cv(cvId, userId, fileName, filePath, fileSize, mime, Some(ExtractTextFromCv(mime, pdf, docx).value),
                   Some(analysis), true, createdAt);
      && (r.result.Raise? <==> x.refused)
      && (x.refused ==> r == Processing(CvTables(t.cvs + [cv], x.skills, x.cvSkills), Raise(rollbackError), true))
  {
    var analysis := AiService.AnalyzeCv(completion, parse);
    var text := ExtractTextFromCv(mime, pdf, docx).value;
    var row := CvRow(Intended, cvId, userId, filePath, fileName, fileSize, mime, text, analysis, createdAt);
    assert FirstWhere(t.cvs, (c: Cv) => c.id == cvId).None?;
    var cvs := InsertCv(t.cvs, row, dbError).value;
    assert cvs[|t.cvs|].id == cvId;
  }

  /** With no ids for new skills, a run whose analysis names, first of all,
      a skill not yet stored fails after committing the CV row alone. */
  lemma UnassignedSkillIdsFailAfterCv(t: CvTables, userId: string, filePath: string, fileName: string,
                                      fileSize: int, mime: string, pdf: Outcome<string>, docx: Outcome<string>,
                                      completion: Outcome<string>, parse: AiService.JsonParser, cvId: string,
                                      createdAt: int, dbError: string, rollbackError: string, b: JsonObject,
                                      rest: seq<Json>)
    requires ExtractTextFromCv(mime, pdf, docx).Ok?
    requires forall i :: 0 <= i < |t.cvs| ==> t.cvs[i].id != cvId
    requires Get(AiService.AnalyzeCv(completion, parse), "skills", JArr([])) == JArr([JObj(b)] + rest)
    requires NormalisedName(b).Ok? && NormalisedName(b).value != ""
    requires forall k :: 0 <= k < |t.skills| ==> t.skills[k].name != NormalisedName(b).value
    ensures var r := ProcessCv(t, Intended, userId, filePath, fileName, fileSize, mime, pdf, docx, completion, parse,
                               cvId, createdAt, Unassigned(dbError), dbError, rollbackError);
      && r.result == Raise(rollbackError) && r.fileRemoved
      && |r.tables.cvs| == |t.cvs| + 1 && r.tables.skills == t.skills && r.tables.cvSkills == t.cvSkills
  {
    UnassignedIdStopsAtNewSkill(t.skills, t.cvSkills, cvId, b, rest, dbError);
    RefusedExtractionKeepsCv(t, userId, filePath, fileName, fileSize, mime, pdf, docx, completion, parse, cvId,
                             createdAt, Unassigned(dbError), dbError, rollbackError);
  }

  /** After a successful run the new CV is the user's only active CV, so it
      is the one `get_active_cv` finds, and other users' CVs are untouched. */
  lemma ProcessedCvIsOnlyActive(t: CvTables, userId: string, filePath: string, fileName: string,
                                fileSize: int, mime: string, pdf: Outcome<string>, docx: Outcome<string>,
                                completion: Outcome<string>, parse: AiService.JsonParser, cvId: string,
                                createdAt: int, skillIds: NewIds<string>, dbError: string, rollbackError: string)
    requires ProcessCv(t, Intended, userId, filePath, fileName, fileSize, mime, pdf, docx, completion, parse, cvId,
                       createdAt, skillIds, dbError, rollbackError).result.Ok?
    ensures var r := ProcessCv(t, Intended, userId, filePath, fileName, fileSize, mime, pdf, docx, completion, parse,
                               cvId, createdAt, skillIds, dbError, rollbackError);
      && (forall i :: 0 <= i < |r.tables.cvs| && r.tables.cvs[i].userId == userId && r.tables.cvs[i].isActive
                      ==> r.tables.cvs[i].id == cvId)
      && (forall i :: 0 <= i < |t.cvs| && t.cvs[i].userId != userId ==> r.tables.cvs[i] == t.cvs[i])
      && GetActiveCv(r.tables.cvs, userId) == Some(r.result.value.cv)
  {
    var r := ProcessCv(t, Intended, userId, filePath, fileName, fileSize, mime, pdf, docx, completion, parse,
                       cvId, createdAt, skillIds, dbError, rollbackError);
    var text := ExtractTextFromCv(mime, pdf, docx).value;
    var analysis := AiService.AnalyzeCv(completion, parse);
    var row := CvRow(Intended, cvId, userId, filePath, fileName, fileSize, mime, text, analysis, createdAt);
    var cvs := InsertCv(t.cvs, row, dbError).value;
    var cv := cvs[|t.cvs|];
    assert cvs == t.cvs + [cv];
    assert r.tables.cvs == DeactivateOthers(cvs, userId, cvId) && r.result.value.cv == cv;
    OnlyNewCvStaysActive(t.cvs, cv, userId);
  }

  /** Appending the user's new active CV, whose id is fresh, and switching
      off the user's others leaves it as the user's only active CV. */
  lemma OnlyNewCvStaysActive(before: seq<Cv>, cv: Cv, userId: string)
    requires cv.userId == userId && cv.isActive
    requires forall i :: 0 <= i < |before| ==> before[i].id != cv.id
    ensures var final := DeactivateOthers(before + [cv], userId, cv.id);
      && (forall i :: 0 <= i < |final| && final[i].userId == userId && final[i].isActive ==> final[i].id == cv.id)
      && (forall i :: 0 <= i < |before| && before[i].userId != userId ==> final[i] == before[i])
      && GetActiveCv(final, userId) == Some(cv)
  {
    var cvs := before + [cv];
    var final := DeactivateOthers(cvs, userId, cv.id);
    assert forall i :: 0 <= i < |before| ==> cvs[i] == before[i];
    assert final[|before|] == cv;
    var p := (c: Cv) => c.userId == userId && c.isActive;
    assert forall i :: 0 <= i < |before| ==> !p(final[i]);
    FirstWhereFinds(final, p, |before|);
  }
}
