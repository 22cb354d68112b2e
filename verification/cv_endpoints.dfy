/** The CV endpoints: the checks an upload passes before it is stored and
    processed, how their failures and the service's reach the client, and
    how a missing or foreign CV becomes a 404. */
module CvEndpoints {
  import opened Common
  import opened Store
  import CvService

  /** What an endpoint answers: the `ApiResponse` of a success, with its
      message and data, or an `HTTPException`. */
  datatype Response<T> = Success(message: string, data: T) | HttpError(status: nat, detail: string)

  /** The largest accepted upload, in bytes. */
  const MaxFileSize: int := 10485760
  const UploadDir: string := "uploads"
  const AllowedExtensions: seq<string> := [".pdf", ".doc", ".docx"]
  const DefaultMime: string := "application/octet-stream"

  /** `file.content_type or DefaultMime`: an absent or empty content type
      falls back to the generic one. */
  function MimeOf(contentType: Option<string>): (r: string)
    ensures r == DefaultMime <==> contentType.None? || contentType.value in {"", DefaultMime}
    ensures r != DefaultMime ==> contentType == Some(r)
  {
    if contentType.Some? && contentType.value != "" then contentType.value else DefaultMime
  }

  const NoFileDetail: string := "No file provided"
  const BadTypeDetail: string := "Invalid file type. Only PDF, DOC, and DOCX files are allowed."
  /** The limit rendered as `max_file_size / (1024*1024)` with one decimal. */
  const TooLargeDetail: string := "File too large. Maximum size is 10.0MB"
  /** The `TypeError` of comparing an unknown size with the limit. */
  const UnknownSizeText: string := "'>' not supported between instances of 'NoneType' and 'int'"
  const UploadFailedPrefix: string := "CV upload failed: "
  const UploadedMessage: string := "CV uploaded and analyzed successfully"
  const NotFoundDetail: string := "CV not found"

  // ---------------------------------------------------------------------
  // File names

  /** `path` without its trailing slashes. */
  function TrimTrailingSlashes(path: string): (r: string)
    ensures |r| <= |path| && r == path[..|r|]
    ensures r == [] || r[|r| - 1] != '/'
  {
    if |path| > 0 && path[|path| - 1] == '/' then TrimTrailingSlashes(path[..|path| - 1]) else path
  }

  /** `Path(path).name`: the last component of a slash-separated path. */
  function BaseName(path: string): (r: string)
    ensures '/' !in r
  {
    var t := TrimTrailingSlashes(path);
    t[RFind(t, '/') + 1..]
  }

  /** `Path(path).suffix`: the name's final dot and what follows it, unless
      that dot starts the name or ends it. */
  function Suffix(path: string): (r: string)
    ensures r == [] || (|r| >= 2 && r[0] == '.' && '.' !in r[1..] && '/' !in r)
  {
    var name := BaseName(path);
    var i := RFind(name, '.');
    if 0 < i < |name| - 1 then
      assert name[i..][1..] == name[i + 1..];
      name[i..]
    else []
  }

  /** The last occurrence of `c` in `s` is at `k` when nothing after `k` is `c`. */
  lemma {:induction false} RFindAt(s: string, c: char, k: nat)
    requires k < |s| && s[k] == c && c !in s[k + 1..]
    ensures RFind(s, c) == k
  {
    var r := RFind(s, c);
    assert forall j :: k < j < |s| ==> s[k + 1..][j - k - 1] == s[j];
    assert r >= 0 by { assert s[k] in s; }
    assert forall j :: r < j < |s| ==> s[r + 1..][j - r - 1] == s[j];
  }

  /** A name made of a stem and an extension has that extension as suffix,
      whatever dots the stem holds. */
  lemma SuffixOfStemAndExtension(stem: string, ext: string)
    requires stem != [] && '/' !in stem
    requires |ext| >= 2 && ext[0] == '.' && '.' !in ext[1..] && '/' !in ext
    ensures Suffix(stem + ext) == ext
  {
    var s := stem + ext;
    assert s[|s| - 1] == ext[|ext| - 1];
    assert TrimTrailingSlashes(s) == s;
    assert '/' !in s by {
      forall k | 0 <= k < |s| ensures s[k] != '/' {
        if k < |stem| { assert s[k] == stem[k]; } else { assert s[k] == ext[k - |stem|]; }
      }
    }
    assert BaseName(s) == s;
    assert s[|stem| + 1..] == ext[1..];
    RFindAt(s, '.', |stem|);
    assert s[|stem|..] == ext;
  }

  /** Where an upload is stored: the upload directory, a fresh unique name
      and the validated extension. */
  function StoredPath(uuid: string, ext: string): string {
    UploadDir + "/" + uuid + ext
  }

  /** The stored file keeps the validated extension, so its suffix passes
      the same check again. */
  lemma StoredPathKeepsExtension(uuid: string, ext: string)
    requires uuid != [] && '/' !in uuid
    requires ext in AllowedExtensions
    ensures Lower(Suffix(StoredPath(uuid, ext))) == ext
  {
    AllowedExtensionShape(ext);
    var name := uuid + ext;
    assert '/' !in name by {
      forall k | 0 <= k < |name| ensures name[k] != '/' {
        if k < |uuid| { assert name[k] == uuid[k]; } else { assert name[k] == ext[k - |uuid|]; }
      }
    }
    assert StoredPath(uuid, ext) == UploadDir + "/" + name;
    BaseNameAfterSlash(UploadDir, name);
    SuffixOfStemAndExtension(uuid, ext);
  }

  /** The name after the last slash is the base name. */
  lemma BaseNameAfterSlash(dir: string, name: string)
    requires name != [] && '/' !in name
    ensures BaseName(dir + "/" + name) == name
  {
    var p := dir + "/" + name;
    assert p[|p| - 1] == name[|name| - 1];
    assert TrimTrailingSlashes(p) == p;
    assert p[|dir|] == '/' && p[|dir| + 1..] == name;
    RFindAt(p, '/', |dir|);
  }

  /** Each allowed extension is a lower-case dot and letters. */
  lemma AllowedExtensionShape(ext: string)
    requires ext in AllowedExtensions
    ensures |ext| >= 2 && ext[0] == '.' && '.' !in ext[1..] && '/' !in ext && Lower(ext) == ext
  {
    if ext == ".pdf" {
      assert ext[1..] == "pdf";
    } else if ext == ".doc" {
      assert ext[1..] == "doc";
    } else {
      assert ext[1..] == "docx";
    }
  }

  // ---------------------------------------------------------------------
  // Failures

  /** An exception raised inside an endpoint: an `HTTPException` it raised
      itself, or any other. */
  datatype Failure = HttpFailure(status: nat, detail: string) | OtherFailure(msg: string)

  /** `str(e)`: an `HTTPException` renders as its status, a colon and its
      detail. */
  function FailureText(f: Failure): string {
    match f
    case HttpFailure(status, detail) => NatText(status) + ": " + detail
    case OtherFailure(msg) => msg
  }

  /** How the upload endpoint answers a failure. As written, its single
      `except Exception` also catches the `HTTPException`s it raised,
      turning them into a 500 about a 400; the intended handling lets them
      through, as every other CV endpoint does. */
  datatype ErrorHandling = CatchAll | ReraiseHttp

  function Answer<T>(handling: ErrorHandling, f: Failure): (r: Response<T>)
    ensures r.HttpError?
    ensures handling == CatchAll ==> r == HttpError(500, UploadFailedPrefix + FailureText(f))
    ensures handling == CatchAll ==> r.detail[..|UploadFailedPrefix|] == UploadFailedPrefix
    ensures f.OtherFailure? ==> r == HttpError(500, UploadFailedPrefix + f.msg)
    ensures handling == ReraiseHttp && f.HttpFailure? ==> r == HttpError(f.status, f.detail)
  {
    match (handling, f)
    case (ReraiseHttp, HttpFailure(status, detail)) => HttpError(status, detail)
    case _ => HttpError(500, UploadFailedPrefix + FailureText(f))
  }

  // ---------------------------------------------------------------------
  // Upload

  /** The upload's checks: a file name, an allowed extension in any case,
      and a known size no larger than the limit. */
  datatype Validation = Accepted(ext: string, size: int) | Rejected(failure: Failure)

  function Validate(filename: Option<string>, size: Option<int>): (r: Validation)
    ensures r.Accepted? <==>
      && filename.Some? && filename.value != ""
      && Lower(Suffix(filename.value)) in AllowedExtensions
      && size.Some? && size.value <= MaxFileSize
    ensures r.Accepted? ==> r.ext == Lower(Suffix(filename.value)) && r.ext in AllowedExtensions
                            && r.size == size.value
    ensures r.Rejected? && r.failure.HttpFailure? ==> r.failure.status == 400
    ensures r.Rejected? && r.failure.OtherFailure? <==>
      filename.Some? && filename.value != "" && Lower(Suffix(filename.value)) in AllowedExtensions && size.None?
  {
    if filename.None? || filename.value == "" then Rejected(HttpFailure(400, NoFileDetail))
    else
      var ext := Lower(Suffix(filename.value));
      if ext !in AllowedExtensions then Rejected(HttpFailure(400, BadTypeDetail))
      else if size.None? then Rejected(OtherFailure(UnknownSizeText))
      else if size.value > MaxFileSize then Rejected(HttpFailure(400, TooLargeDetail))
      else Accepted(ext, size.value)
  }

  /** The size limit is inclusive: a file of exactly the limit passes and
      one byte more is refused. */
  lemma SizeLimitIsInclusive(filename: string)
    requires filename != "" && Lower(Suffix(filename)) in AllowedExtensions
    ensures Validate(Some(filename), Some(MaxFileSize)).Accepted?
    ensures Validate(Some(filename), Some(MaxFileSize + 1)) == Rejected(HttpFailure(400, TooLargeDetail))
  {
  }

  /** Everything the processing of an upload depends on that the endpoint
      cannot see: how the service builds the row, the extractors' and the
      chat model's replies, the JSON decoder, the new row's id and time,
      the ids of new skills, the database's error text for a refused
      insert, and the error of the first query after one. */
  datatype Backend = Backend(
    construction: CvService.CvConstruction,
    pdf: Outcome<string>,
    docx: Outcome<string>,
    completion: Outcome<string>,
    parse: string -> Outcome<JsonObject>,
    cvId: string,
    createdAt: int,
    skillIds: NewIds<string>,
    dbError: string,
    rollbackError: string)

  /** The tables after an upload, the answer, and the stored file left on
      disk. */
  datatype Upload = Upload(tables: CvService.CvTables, response: Response<CvService.ProcessedCv>,
                           storedFile: Option<string>)

  /** `upload_cv`: validate the upload, store it under a fresh name in the
      upload directory and hand it to the CV service. `uuid` is the fresh
      name; `writeError` is the failure, if any, to create the directory or
      open the file. */
  function UploadCv(t: CvService.CvTables, handling: ErrorHandling, userId: string, filename: Option<string>,
                    size: Option<int>, contentType: Option<string>, uuid: string, writeError: Option<string>,
                    b: Backend)
    : (r: Upload)
    ensures r.response.HttpError? ==> r.storedFile.None?
    ensures r.response.HttpError? && r.tables != t ==>
      && b.construction == CvService.Intended
      && r.response == HttpError(500, UploadFailedPrefix + b.rollbackError)
      && |r.tables.cvs| == |t.cvs| + 1 && r.tables.cvs[..|t.cvs|] == t.cvs
    ensures Validate(filename, size).Rejected? ==>
      r.response == Answer(handling, Validate(filename, size).failure)
    ensures r.response.Success? ==>
      && Validate(filename, size).Accepted? && writeError.None?
      && r.response.message == UploadedMessage
      && r.storedFile == Some(StoredPath(uuid, Validate(filename, size).ext))
      && r.response.data.cv.filePath == r.storedFile.value
      && r.response.data.cv.fileName == filename.value
      && r.response.data.cv.fileSize <= MaxFileSize
      && r.response.data.cv.mimeType == MimeOf(contentType)
      && r.response.data.cv.userId == userId && r.response.data.cv.isActive
    ensures handling == CatchAll && r.response.HttpError? ==> r.response.status == 500
  {
    match Validate(filename, size)
    case Rejected(f) => Upload(t, Answer(handling, f), None)
    case Accepted(ext, fileSize) =>
      if writeError.Some? then Upload(t, Answer(handling, OtherFailure(writeError.value)), None)
      else
        var path := StoredPath(uuid, ext);
        var mime := MimeOf(contentType);
        var p := CvService.ProcessCv(t, b.construction, userId, path, filename.value, fileSize, mime, b.pdf,
                                     b.docx, b.completion, b.parse, b.cvId, b.createdAt, b.skillIds, b.dbError,
                                     b.rollbackError);
        match p.result
        case Raise(m) => Upload(p.tables, Answer(handling, OtherFailure(m)), None)
        case Ok(processed) => Upload(p.tables, Success(UploadedMessage, processed), Some(path))
  }

  /** As written, a rejected upload reaches the client as a 500 whose
      detail wraps the 400 the check raised. */
  lemma AsWrittenRejectionsAre500(t: CvService.CvTables, userId: string, filename: Option<string>,
                                  size: Option<int>, contentType: Option<string>, uuid: string,
                                  writeError: Option<string>, b: Backend)
    requires Validate(filename, size).Rejected? && Validate(filename, size).failure.HttpFailure?
    ensures var d := Validate(filename, size).failure.detail;
      UploadCv(t, CatchAll, userId, filename, size, contentType, uuid, writeError, b).response
        == HttpError(500, UploadFailedPrefix + "400: " + d)
  {
    var f := Validate(filename, size).failure;
    assert UploadCv(t, CatchAll, userId, filename, size, contentType, uuid, writeError, b).response
        == Answer(CatchAll, f);
    CatchAllBadRequest(f.detail);
  }

  /** A 400 caught by the blanket handler. */
  lemma CatchAllBadRequest(detail: string)
    ensures Answer<CvService.ProcessedCv>(CatchAll, HttpFailure(400, detail))
         == HttpError(500, UploadFailedPrefix + "400: " + detail)
  {
    StatusText400();
  }

  /** An example: the status code as `str` renders it. */
  lemma StatusText400()
    ensures NatText(400) == "400"
  {
    assert NatText(4) == "4";
    assert NatText(40) == "40";
  }

  /** With the intended handling a rejected upload is answered with the
      400 and the detail its check gives. */
  lemma IntendedRejectionsAre400(t: CvService.CvTables, userId: string, filename: Option<string>,
                                 size: Option<int>, contentType: Option<string>, uuid: string,
                                 writeError: Option<string>, b: Backend)
    requires Validate(filename, size).Rejected? && Validate(filename, size).failure.HttpFailure?
    ensures UploadCv(t, ReraiseHttp, userId, filename, size, contentType, uuid, writeError, b).response
         == HttpError(400, Validate(filename, size).failure.detail)
  {
  }

  /** As the service is written no upload succeeds: every accepted file
      ends in a 500 carrying the database's error, nothing is stored and
      no table changes. */
  lemma AsWrittenUploadsNeverSucceed(t: CvService.CvTables, handling: ErrorHandling, userId: string,
                                     filename: Option<string>, size: Option<int>, contentType: Option<string>,
                                     uuid: string, b: Backend)
    requires b.construction == CvService.AsWritten
    requires Validate(filename, size).Accepted?
    requires CvService.ExtractTextFromCv(MimeOf(contentType), b.pdf, b.docx).Ok?
    ensures UploadCv(t, handling, userId, filename, size, contentType, uuid, None, b)
         == Upload(t, HttpError(500, UploadFailedPrefix + b.dbError), None)
  {
    var v := Validate(filename, size);
    var mime := MimeOf(contentType);
    CvService.AsWrittenProcessingAlwaysFails(t, userId, StoredPath(uuid, v.ext), filename.value, v.size, mime,
                                             b.pdf, b.docx, b.completion, b.parse, b.cvId, b.createdAt,
                                             b.skillIds, b.dbError, b.rollbackError);
  }

  // ---------------------------------------------------------------------
  // Lookups and updates of one CV

  const RetrieveFailedPrefix: string := "Failed to retrieve CV: "
  const DeleteFailedPrefix: string := "Failed to delete CV: "

  /** The CV's `skills` relationship holds a `Skill` row: some row of the
      `cv_skills` association links the CV to an existing skill. */
  predicate HasSkills(skills: seq<Skill>, cvSkills: seq<CvSkill>, cvId: string) {
    exists i, j :: 0 <= i < |cvSkills| && 0 <= j < |skills| && cvSkills[i].cvId == cvId
                   && skills[j].id == cvSkills[i].skillId
  }

  /** `get_cv`: the user's CV, or 404 when the user owns no CV with that
      id, whether it is missing or another user's. The answer is built by
      `CVWithSkills.from_orm`, whose `skills` field accepts only dicts and
      is handed the CV's `Skill` rows, so a CV with any skill fails
      validation with pydantic's message `validationError`, which the
      catch-all turns into a 500. */
  function GetCvEndpoint(cvs: seq<Cv>, skills: seq<Skill>, cvSkills: seq<CvSkill>, cvId: string, userId: string,
                         validationError: string): (r: Response<Cv>)
    ensures r.HttpError? <==> !CvService.Owns(cvs, cvId, userId) || HasSkills(skills, cvSkills, cvId)
    ensures !CvService.Owns(cvs, cvId, userId) ==> r == HttpError(404, NotFoundDetail)
    ensures CvService.Owns(cvs, cvId, userId) && HasSkills(skills, cvSkills, cvId)
            ==> r == HttpError(500, RetrieveFailedPrefix + validationError)
    ensures r.Success? ==> r.message == "CV retrieved successfully" && r.data in cvs
                           && r.data.id == cvId && r.data.userId == userId
  {
    match CvService.GetCv(cvs, cvId, userId)
    case None => HttpError(404, NotFoundDetail)
    case Some(cv) =>
      if HasSkills(skills, cvSkills, cvId) then HttpError(500, RetrieveFailedPrefix + validationError)
      else Success("CV retrieved successfully", cv)
  }

  /** `activate_cv`: a 404 changes nothing. */
  function ActivateEndpoint(cvs: seq<Cv>, cvId: string, userId: string): (r: (seq<Cv>, Response<Cv>))
    ensures r.1.HttpError? <==> !CvService.Owns(cvs, cvId, userId)
    ensures r.1.HttpError? ==> r.1 == HttpError(404, NotFoundDetail) && r.0 == cvs
    ensures r.1.Success? ==> r.1.message == "CV activated successfully" && r.1.data.isActive && r.1.data in r.0
  {
    var (table, cv) := CvService.ActivateCv(cvs, cvId, userId);
    match cv
    case None => (table, HttpError(404, NotFoundDetail))
    case Some(c) => (table, Success("CV activated successfully", c))
  }

  /** `deactivate_cv`: a 404 changes nothing. */
  function DeactivateEndpoint(cvs: seq<Cv>, cvId: string, userId: string): (r: (seq<Cv>, Response<Cv>))
    ensures r.1.HttpError? <==> !CvService.Owns(cvs, cvId, userId)
    ensures r.1.HttpError? ==> r.1 == HttpError(404, NotFoundDetail) && r.0 == cvs
    ensures r.1.Success? ==> r.1.message == "CV deactivated successfully" && !r.1.data.isActive && r.1.data in r.0
  {
    var (table, cv) := CvService.DeactivateCv(cvs, cvId, userId);
    match cv
    case None => (table, HttpError(404, NotFoundDetail))
    case Some(c) => (table, Success("CV deactivated successfully", c))
  }

  /** An activated CV is what a later `get_cv` returns, active, unless it
      has skills, which make that `get_cv` a 500. */
  lemma ActivateThenGet(cvs: seq<Cv>, skills: seq<Skill>, cvSkills: seq<CvSkill>, cvId: string, userId: string,
                        validationError: string)
    requires CvService.Owns(cvs, cvId, userId)
    ensures var (table, answer) := ActivateEndpoint(cvs, cvId, userId);
      && answer.Success? && answer.data.isActive
      && GetCvEndpoint(table, skills, cvSkills, cvId, userId, validationError)
         == if HasSkills(skills, cvSkills, cvId) then HttpError(500, RetrieveFailedPrefix + validationError)
            else Success("CV retrieved successfully", answer.data)
  {
    var p := (c: Cv) => c.id == cvId && c.userId == userId;
    var i := FirstWhere(cvs, p).value;
    var table := ActivateEndpoint(cvs, cvId, userId).0;
    assert table == cvs[i := cvs[i].(isActive := true)];
    assert forall k :: 0 <= k < i ==> table[k] == cvs[k];
    FirstWhereFinds(table, p, i);
  }

  /** `delete_cv`: a 404 changes nothing; a deletion the database refuses
      (the CV has job matches) is a 500 that changes nothing either. */
  function DeleteEndpoint(cvs: seq<Cv>, cvSkills: seq<CvSkill>, matches: seq<JobMatch>, cvId: string,
                          userId: string, dbError: string): (r: (seq<Cv>, seq<CvSkill>, Response<()>))
    ensures r.2 == HttpError(404, NotFoundDetail) <==> !CvService.Owns(cvs, cvId, userId)
    ensures r.2 == HttpError(500, DeleteFailedPrefix + dbError)
            <==> CvService.Owns(cvs, cvId, userId) && HasMatches(matches, cvId)
    ensures r.2.HttpError? ==> r.0 == cvs && r.1 == cvSkills
    ensures r.2.Success? ==>
      && r.2.message == "CV deleted successfully" && |r.0| == |cvs| - 1
      && forall x :: x in r.1 <==> x in cvSkills && x.cvId != cvId
  {
    var d := CvService.DeleteCv(cvs, cvSkills, matches, cvId, userId, dbError);
    match d.result
    case Raise(m) => (d.cvs, d.cvSkills, HttpError(500, DeleteFailedPrefix + m))
    case Ok(deleted) =>
      if deleted then (d.cvs, d.cvSkills, Success("CV deleted successfully", ()))
      else (d.cvs, d.cvSkills, HttpError(404, NotFoundDetail))
  }

  function CvId(c: Cv): string {
    c.id
  }

  /** With unique CV ids, a CV is not found after its deletion exactly when
      the deletion was not refused. */
  lemma DeleteThenGetIsNotFound(cvs: seq<Cv>, skills: seq<Skill>, cvSkills: seq<CvSkill>, matches: seq<JobMatch>,
                                cvId: string, userId: string, dbError: string, validationError: string)
    requires UniqueBy(cvs, CvId)
    ensures var (table, links, _) := DeleteEndpoint(cvs, cvSkills, matches, cvId, userId, dbError);
      GetCvEndpoint(table, skills, links, cvId, userId, validationError) == HttpError(404, NotFoundDetail)
      <==> !(CvService.Owns(cvs, cvId, userId) && HasMatches(matches, cvId))
  {
    var d := CvService.DeleteCv(cvs, cvSkills, matches, cvId, userId, dbError);
    if d.result == Ok(true) {
      var table := d.cvs;
      var i :| 0 <= i < |cvs| && cvs[i].id == cvId && cvs[i].userId == userId && table == cvs[..i] + cvs[i + 1..];
      forall k | 0 <= k < |table|
        ensures !(table[k].id == cvId && table[k].userId == userId)
      {
        if k < i {
          assert table[k] == cvs[k] && CvId(cvs[k]) != CvId(cvs[i]);
        } else {
          assert table[k] == cvs[k + 1] && CvId(cvs[k + 1]) != CvId(cvs[i]);
        }
      }
    }
  }

  // ---------------------------------------------------------------------
  // A CV's skills

  const AddSkillFailedPrefix: string := "Failed to add skill to CV: "
  const SkillsFailedPrefix: string := "Failed to retrieve CV skills: "

  /** The `CVSkillResponse` of an added skill: the pair and its skill. */
  datatype CvSkillAnswer = CvSkillAnswer(row: CvSkill, skill: Skill)

  /** `CVSkillResponse.from_orm` accepts the answer: `level` is an integer
      from 1 to 5, `years` is absent or a non-negative integer, and the
      skill's `category` is a string. */
  predicate AnswerValid(a: CvSkillAnswer) {
    && a.row.level.JNum? && 1 <= a.row.level.n <= 5
    && (a.row.years.JNull? || (a.row.years.JNum? && a.row.years.n >= 0))
    && a.skill.category.JStr?
  }

  /** `add_cv_skill`: 404 when the user owns no such CV or the skill does
      not exist, and a 404 changes nothing; an answer the response schema
      refuses is a 500 raised after the commit, so the table keeps the
      change. */
  function AddSkillEndpoint(cvs: seq<Cv>, skills: seq<Skill>, cvSkills: seq<CvSkill>, cvId: string, userId: string,
                            skillId: string, level: Json, years: Json, validationError: string)
    : (r: (seq<CvSkill>, Response<CvSkillAnswer>))
    ensures r.0 == CvService.AddCvSkill(cvs, skills, cvSkills, cvId, userId, skillId, level, years).0
    ensures r.1 == HttpError(404, NotFoundDetail) <==>
      !CvService.Owns(cvs, cvId, userId) || !CvService.HasSkillId(skills, skillId)
    ensures r.1.HttpError? && r.1.status == 404 ==> r.0 == cvSkills
    ensures r.1.HttpError? && r.1.status != 404 ==>
      r.1 == HttpError(500, AddSkillFailedPrefix + validationError)
      && exists k :: CvService.FirstWithId(skills, k, skillId)
                     && !AnswerValid(CvSkillAnswer(CvSkill(cvId, skillId, level, years), skills[k]))
    ensures r.1.Success? ==>
      && r.1.message == "Skill added to CV successfully"
      && r.1.data.row == CvSkill(cvId, skillId, level, years) && r.1.data.row in r.0
      && AnswerValid(r.1.data)
      && exists k :: CvService.FirstWithId(skills, k, skillId) && r.1.data.skill == skills[k]
  {
    var (table, row) := CvService.AddCvSkill(cvs, skills, cvSkills, cvId, userId, skillId, level, years);
    match row
    case None => (table, HttpError(404, NotFoundDetail))
    case Some(x) =>
      var k := FirstWhere(skills, (s: Skill) => s.id == skillId).value;
      assert CvService.FirstWithId(skills, k, skillId);
      var answer := CvSkillAnswer(x, skills[k]);
      if AnswerValid(answer) then (table, Success("Skill added to CV successfully", answer))
      else (table, HttpError(500, AddSkillFailedPrefix + validationError))
  }

  /** `get_cv_skills` never answers 404: a CV the user does not own simply
      has no skills; a row whose skill is missing is a 500. */
  function GetCvSkillsEndpoint(cvs: seq<Cv>, skills: seq<Skill>, cvSkills: seq<CvSkill>, cvId: string, userId: string)
    : (r: Response<seq<CvService.SkillEntry>>)
    ensures r.HttpError? <==> CvService.Owns(cvs, cvId, userId) && CvService.MissingSkill(skills, cvSkills, cvId)
    ensures r.HttpError? ==> r == HttpError(500, SkillsFailedPrefix + CvService.NoSkillText)
    ensures r.Success? ==> r.message == "CV skills retrieved successfully"
    ensures !CvService.Owns(cvs, cvId, userId) ==> r == Success("CV skills retrieved successfully", [])
    ensures r.Success? ==> forall e :: e in r.data ==>
      exists i, k :: 0 <= i < |cvSkills| && cvSkills[i].cvId == cvId && CvService.FirstWithId(skills, k, cvSkills[i].skillId)
                     && e == CvService.EntryOf(cvSkills[i], skills[k])
  {
    match CvService.GetCvSkills(cvs, skills, cvSkills, cvId, userId)
    case Ok(entries) => Success("CV skills retrieved successfully", entries)
    case Raise(msg) => HttpError(500, SkillsFailedPrefix + msg)
  }

  /** A skill added through the endpoint is listed by `get_cv_skills`, with
      the name and category of the skill the answer carried, as long as
      every skill the CV's rows name exists. */
  lemma AddedSkillIsListed(cvs: seq<Cv>, skills: seq<Skill>, cvSkills: seq<CvSkill>, cvId: string, userId: string,
                           skillId: string, level: Json, years: Json, validationError: string)
    requires AddSkillEndpoint(cvs, skills, cvSkills, cvId, userId, skillId, level, years, validationError).1.Success?
    requires !CvService.MissingSkill(skills, cvSkills, cvId)
    ensures var (table, answer) := AddSkillEndpoint(cvs, skills, cvSkills, cvId, userId, skillId, level, years, validationError);
      var listed := GetCvSkillsEndpoint(cvs, skills, table, cvId, userId);
      listed.Success? && CvService.EntryOf(answer.data.row, answer.data.skill) in listed.data
  {
    var (table, answer) := AddSkillEndpoint(cvs, skills, cvSkills, cvId, userId, skillId, level, years, validationError);
    var k :| CvService.FirstWithId(skills, k, skillId) && answer.data.skill == skills[k];
    var i :| 0 <= i < |table| && table[i] == answer.data.row;
    assert !CvService.MissingSkill(skills, table, cvId) by {
      forall j | 0 <= j < |table| && table[j].cvId == cvId
        ensures CvService.HasSkillId(skills, table[j].skillId)
      {
        AddedRowsHaveSkills(cvs, skills, cvSkills, cvId, userId, skillId, level, years, j);
      }
    }
    assert CvService.Owns(cvs, cvId, userId);
    CvService.JoinCvRowsComplete(skills, table, cvId, i, k);
  }

  /** Each row of the CV after an add names an existing skill, when each
      row before it did. */
  lemma AddedRowsHaveSkills(cvs: seq<Cv>, skills: seq<Skill>, cvSkills: seq<CvSkill>, cvId: string, userId: string,
                            skillId: string, level: Json, years: Json, j: int)
    requires CvService.AddCvSkill(cvs, skills, cvSkills, cvId, userId, skillId, level, years).1.Some?
    requires !CvService.MissingSkill(skills, cvSkills, cvId)
    requires var table := CvService.AddCvSkill(cvs, skills, cvSkills, cvId, userId, skillId, level, years).0;
      0 <= j < |table| && table[j].cvId == cvId
    ensures CvService.HasSkillId(skills, CvService.AddCvSkill(cvs, skills, cvSkills, cvId, userId, skillId, level, years).0[j].skillId)
  {
    var r := CvService.AddCvSkill(cvs, skills, cvSkills, cvId, userId, skillId, level, years);
    if r.0[j] != r.1.value {
      if CvService.Paired(cvSkills, cvId, skillId) {
        var i :| 0 <= i < |cvSkills| && CvService.PairKey(cvSkills[i]) == (cvId, skillId) && r.0 == cvSkills[i := r.1.value];
        assert r.0[j] == cvSkills[j];
      } else {
        assert r.0[j] == cvSkills[j];
      }
    }
  }
}
