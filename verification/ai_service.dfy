/** The AI service: four analyses that ask a chat model for JSON, cut the
    JSON object out of the reply, and fall back to fixed answers whenever
    anything on the way raises.

    The model call itself is not modelled: each operation receives the
    outcome of `_call_openai` for its prompt (`completion`) and the JSON
    decoder (`parse`, standing for `json.loads` applied to a text that starts
    with `{` and ends with `}`, which can only yield an object or raise). */
module AiService {
  import opened Common

  type JsonParser = string -> Outcome<JsonObject>

  const NoJsonMessage: string := "No JSON found in response"
  /** `str()` of the error `json.loads("")` raises. */
  const EmptyDocumentMessage: string := "Expecting value: line 1 column 1 (char 0)"
  /** `str()` of the `NameError` raised by the undefined name in the message
      list of `_call_openai`. */
  const UndefinedContentMessage: string := "name 'content' is not defined"

  // ---------------------------------------------------------------------
  // Cutting the JSON object out of a reply

  /** `v` is the stretch of `response` that starts at its first `{`
      (at index `a`) and ends at its last `}`. */
  ghost predicate JsonSpanAt(response: string, a: int, v: string) {
    && 0 <= a && a + |v| <= |response|
    && v == response[a..a + |v|]
    && |v| > 0 && v[0] == '{' && v[|v| - 1] == '}'
    && '{' !in response[..a]
    && '}' !in response[a + |v|..]
  }

  /** Every `}` of `response` comes before every `{`. */
  ghost predicate ClosesBeforeOpens(response: string) {
    forall i, j :: 0 <= i < j < |response| && response[i] == '{' ==> response[j] != '}'
  }

  /** The slicing half of `_parse_json_response`: `response[start:end]` with
      `start` the first `{` and `end` one past the last `}`. */
  function ExtractJson(response: string): (r: Outcome<string>)
    ensures r.Raise? <==> '{' !in response || '}' !in response
    ensures r.Raise? ==> r.msg == NoJsonMessage
    ensures r.Ok? ==> (r.value == [] <==> ClosesBeforeOpens(response))
    ensures r.Ok? && r.value != [] ==> exists a :: JsonSpanAt(response, a, r.value)
  {
    var start := Find(response, '{');
    var end := RFind(response, '}') + 1;
    if start == -1 || end == 0 then Raise(NoJsonMessage)
    else
      var v := Slice(response, start, end);
      if start < end then
        assert v == response[start..end];
        assert JsonSpanAt(response, start, v);
        assert !ClosesBeforeOpens(response) by {
          assert response[start] == '{' && response[end - 1] == '}';
        }
        Ok(v)
      else
        assert ClosesBeforeOpens(response) by {
          forall i, j | 0 <= i < j < |response| && response[i] == '{'
            ensures response[j] != '}'
          {
            assert start <= i by {
              assert forall k :: 0 <= k < start ==> response[..start][k] == response[k];
            }
            assert response[end..][j - end] == response[j];
          }
        }
        Ok(v)
  }

  /** `_parse_json_response`: decode the object cut out of the reply. An
      empty cut reaches `json.loads("")`, which raises. */
  function ParseJsonResponse(response: string, parse: JsonParser): (r: Outcome<JsonObject>)
    ensures '{' !in response || '}' !in response ==> r == Raise(NoJsonMessage)
    ensures '{' in response && '}' in response && ClosesBeforeOpens(response)
            ==> r == Raise(EmptyDocumentMessage)
    ensures !ClosesBeforeOpens(response) ==> exists a, v :: JsonSpanAt(response, a, v) && r == parse(v)
  {
    match ExtractJson(response)
    case Raise(m) => Raise(m)
    case Ok(v) => if v == [] then Raise(EmptyDocumentMessage) else parse(v)
  }

  /** Only one text is the JSON span of a reply. */
  lemma JsonSpanUnique(response: string, a: int, v: string, b: int, w: string)
    requires JsonSpanAt(response, a, v) && JsonSpanAt(response, b, w)
    ensures a == b && v == w
  {
    assert a <= b by {
      assert forall k :: 0 <= k < b ==> response[..b][k] == response[k];
    }
    assert b <= a by {
      assert forall k :: 0 <= k < a ==> response[..a][k] == response[k];
    }
    var e := a + |v|;
    var f := b + |w|;
    assert e <= f by {
      assert forall k :: e <= k < |response| ==> response[e..][k - e] == response[k];
    }
    assert f <= e by {
      assert forall k :: f <= k < |response| ==> response[f..][k - f] == response[k];
    }
  }

  // ---------------------------------------------------------------------
  // The model call

  /** `_call_openai` as written. Its message list refers to an undefined
      name `content`, so once the client is set up (`setup == None`) the
      call raises `NameError`; when importing or constructing the client
      fails, that error propagates instead. Either way it never returns. */
  function CallOpenAiAsWritten(setup: Option<string>): (r: Outcome<string>)
    ensures r.Raise?
    ensures setup.None? ==> r.msg == UndefinedContentMessage
  {
    match setup
    case Some(m) => Raise(m)
    case None => Raise(UndefinedContentMessage)
  }

  /** `_call_openai` as evidently intended: the message's key spelled
      `"content"`, and the client the asynchronous `AsyncOpenAI`, since the
      call awaits `chat.completions.create` and the synchronous client's
      answer cannot be awaited. The reply of the chat model (`reply`) is
      passed through once the client is set up. */
  function CallOpenAi(setup: Option<string>, reply: Outcome<string>): (r: Outcome<string>)
    ensures setup.Some? ==> r == Raise(setup.value)
    ensures setup.None? ==> r == reply
  {
    if setup.Some? then Raise(setup.value) else reply
  }

  // ---------------------------------------------------------------------
  // The four analyses

  /** Shape shared by `analyze_cv`, `analyze_job_description` and
      `calculate_match_score`: the decoded reply, or `fallback` when the call
      or the decoding raises. */
  function ParsedOr(completion: Outcome<string>, parse: JsonParser, fallback: JsonObject): (r: JsonObject)
    ensures completion.Raise? ==> r == fallback
    ensures completion.Ok? && ParseJsonResponse(completion.value, parse).Ok?
            ==> r == ParseJsonResponse(completion.value, parse).value
    ensures completion.Ok? && ParseJsonResponse(completion.value, parse).Raise? ==> r == fallback
    ensures r != fallback ==> completion.Ok? && exists a, v :: JsonSpanAt(completion.value, a, v) && parse(v) == Ok(r)
  {
    match completion
    case Raise(_) => fallback
    case Ok(text) =>
      match ParseJsonResponse(text, parse)
      case Ok(obj) => obj
      case Raise(_) => fallback
  }

  function AnalyzeCv(completion: Outcome<string>, parse: JsonParser): (r: JsonObject)
    ensures completion.Raise? ==> r == FallbackCvAnalysis
    ensures completion.Ok? && ParseJsonResponse(completion.value, parse).Ok?
            ==> r == ParseJsonResponse(completion.value, parse).value
    ensures completion.Ok? && ParseJsonResponse(completion.value, parse).Raise? ==> r == FallbackCvAnalysis
    ensures r != FallbackCvAnalysis ==> completion.Ok? && exists a, v :: JsonSpanAt(completion.value, a, v) && parse(v) == Ok(r)
  {
    ParsedOr(completion, parse, FallbackCvAnalysis)
  }

  function AnalyzeJobDescription(completion: Outcome<string>, parse: JsonParser): (r: JsonObject)
    ensures completion.Raise? ==> r == FallbackJobAnalysis
    ensures completion.Ok? && ParseJsonResponse(completion.value, parse).Ok?
            ==> r == ParseJsonResponse(completion.value, parse).value
    ensures completion.Ok? && ParseJsonResponse(completion.value, parse).Raise? ==> r == FallbackJobAnalysis
    ensures r != FallbackJobAnalysis ==> completion.Ok? && exists a, v :: JsonSpanAt(completion.value, a, v) && parse(v) == Ok(r)
  {
    ParsedOr(completion, parse, FallbackJobAnalysis)
  }

  function CalculateMatchScore(completion: Outcome<string>, parse: JsonParser): (r: JsonObject)
    ensures completion.Raise? ==> r == FallbackMatchAnalysis
    ensures completion.Ok? && ParseJsonResponse(completion.value, parse).Ok?
            ==> r == ParseJsonResponse(completion.value, parse).value
    ensures completion.Ok? && ParseJsonResponse(completion.value, parse).Raise? ==> r == FallbackMatchAnalysis
    ensures r != FallbackMatchAnalysis ==> completion.Ok? && exists a, v :: JsonSpanAt(completion.value, a, v) && parse(v) == Ok(r)
  {
    ParsedOr(completion, parse, FallbackMatchAnalysis)
  }

  /** `generate_skill_recommendations`. A decoded reply is always an object,
      never the list the code expects, so a successful decoding yields `[]`;
      any failure yields the fallback list. The model's own recommendations
      are never returned. */
  function GenerateSkillRecommendations(completion: Outcome<string>, parse: JsonParser): (r: seq<JsonObject>)
    ensures r == [] || r == FallbackRecommendations
    ensures r == [] <==> completion.Ok? && !ClosesBeforeOpens(completion.value)
                         && (exists a, v :: JsonSpanAt(completion.value, a, v) && parse(v).Ok?)
  {
    match completion
    case Raise(_) => FallbackRecommendations
    case Ok(text) =>
      var parsed := ParseJsonResponse(text, parse);
      if parsed.Ok? then
        []
      else
        assert !(exists a, v :: JsonSpanAt(text, a, v) && parse(v).Ok?) by {
          forall a, v | JsonSpanAt(text, a, v)
            ensures !parse(v).Ok?
          {
            var b, w :| JsonSpanAt(text, b, w) && parsed == parse(w);
            JsonSpanUnique(text, a, v, b, w);
          }
        }
        FallbackRecommendations
  }

  // ---------------------------------------------------------------------
  // Fixed answers

  function Strs(xs: seq<string>): Json {
    JArr(seq(|xs|, i requires 0 <= i < |xs| => JStr(xs[i])))
  }

  const FallbackCvAnalysis: JsonObject := map[
    "profile" := JObj(map[
      "name" := JStr("Unknown"),
      "title" := JStr("Professional"),
      "location" := JStr("Unknown"),
      "experience_years" := JNum(0),
      "summary" := JStr("No summary available")]),
    "skills" := JArr([JObj(map[
      "name" := JStr("Communication"), "level" := JNum(3),
      "years" := JNum(2), "category" := JStr("Soft")])]),
    "experience" := JArr([]),
    "education" := JArr([]),
    "certifications" := JArr([]),
    "languages" := JArr([]),
    "analysis" := JObj(map[
      "experience_level" := JStr("Entry"),
      "strengths" := Strs(["Communication"]),
      "improvement_areas" := Strs(["Technical skills"]),
      "market_readiness_score" := JNum(30),
      "recommended_roles" := Strs(["Junior Professional"]),
      "career_trajectory" := JStr("Early career development")])]

  const FallbackJobAnalysis: JsonObject := map[
    "title" := JStr("Professional Position"),
    "company" := JStr("Company"),
    "location" := JStr("Location"),
    "remote" := JBool(false),
    "job_type" := JStr("Full-time"),
    "experience_level" := JStr("Mid"),
    "required_skills" := JArr([JObj(map[
      "name" := JStr("Communication"), "level" := JNum(3), "importance" := JStr("High")])]),
    "preferred_skills" := JArr([]),
    "responsibilities" := Strs(["Professional responsibilities"]),
    "qualifications" := Strs(["Professional qualifications"]),
    "analysis" := JObj(map[
      "difficulty_level" := JStr("Medium"),
      "market_demand" := JStr("Medium"),
      "growth_potential" := JStr("Medium")])]

  const FallbackMatchAnalysis: JsonObject := map[
    "overall_score" := JNum(50),
    "skill_match_score" := JNum(50),
    "experience_match_score" := JNum(50),
    "skill_analysis" := JArr([]),
    "missing_skills" := JArr([]),
    "strengths" := Strs(["Professional attitude"]),
    "weaknesses" := Strs(["Specific technical skills"]),
    "recommendations" := JArr([]),
    "fit_assessment" := JObj(map[
      "level" := JStr("Fair"),
      "confidence" := JStr("Medium"),
      "reasoning" := JStr("Limited analysis available")])]

  const FallbackRecommendations: seq<JsonObject> := [map[
    "skill" := JStr("Communication"),
    "category" := JStr("Soft"),
    "priority" := JNum(3),
    "reason" := JStr("Important for professional development"),
    "current_level" := JNum(3),
    "target_level" := JNum(4),
    "time_to_achieve" := JStr("3-6 months"),
    "difficulty" := JStr("Medium")]]

  // ---------------------------------------------------------------------
  // Properties

  /** With `_call_openai` as written, every analysis returns its fixed
      answer, whatever the inputs and the decoder. */
  lemma AsWrittenAlwaysFallsBack(setup: Option<string>, parse: JsonParser)
    ensures AnalyzeCv(CallOpenAiAsWritten(setup), parse) == FallbackCvAnalysis
    ensures AnalyzeJobDescription(CallOpenAiAsWritten(setup), parse) == FallbackJobAnalysis
    ensures CalculateMatchScore(CallOpenAiAsWritten(setup), parse) == FallbackMatchAnalysis
    ensures GenerateSkillRecommendations(CallOpenAiAsWritten(setup), parse) == FallbackRecommendations
  {
  }

  /** With the corrected call, a reply holding a decodable object reaches the
      caller of each of the three analyses unchanged. */
  lemma CorrectedCallReturnsDecodedReply(reply: string, parse: JsonParser, a: int, v: string, obj: JsonObject)
    requires JsonSpanAt(reply, a, v) && parse(v) == Ok(obj)
    ensures AnalyzeCv(CallOpenAi(None, Ok(reply)), parse) == obj
    ensures AnalyzeJobDescription(CallOpenAi(None, Ok(reply)), parse) == obj
    ensures CalculateMatchScore(CallOpenAi(None, Ok(reply)), parse) == obj
  {
    assert !ClosesBeforeOpens(reply) by {
      assert reply[a] == v[0] && reply[a + |v| - 1] == v[|v| - 1];
    }
    var b, w :| JsonSpanAt(reply, b, w) && ParseJsonResponse(reply, parse) == parse(w);
    JsonSpanUnique(reply, a, v, b, w);
  }

  /** A non-empty cut starts at the reply's first `{` and holds every pair
      of a `{` followed, anywhere later, by a `}`: braces nested inside the
      object stay inside it, and only text around it is dropped. */
  lemma ExtractJsonKeepsBracePairs(response: string)
    requires ExtractJson(response).Ok? && ExtractJson(response).value != []
    ensures var v := ExtractJson(response).value;
            var a := Find(response, '{');
      && 0 <= a && a + |v| <= |response| && response[a..a + |v|] == v
      && v[0] == '{' && v[|v| - 1] == '}'
      && forall i, j :: 0 <= i < j < |response| && response[i] == '{' && response[j] == '}' ==> a <= i && j < a + |v|
  {
    var v := ExtractJson(response).value;
    var a := Find(response, '{');
    var e := RFind(response, '}') + 1;
    assert v == response[a..e];
  }

  /** An example: text around the object and braces inside it do not
      disturb the cut. */
  lemma ExtractJsonNested()
    ensures ExtractJson("a{b{}c}d") == Ok("{b{}c}")
  {
    var s := "a{b{}c}d";
    assert Find(s[1..], '{') == 0;
    assert Find(s, '{') == 1;
    assert RFind(s[..7], '}') == 6;
    assert RFind(s, '}') == 6;
    assert s[1..7] == "{b{}c}";
  }

  /** An example: a reply whose only `}` precedes its only `{` is cut to the
      empty text, which the decoder then rejects. */
  lemma ParseJsonResponseMisorderedBraces(parse: JsonParser)
    ensures ExtractJson("}{") == Ok("")
    ensures ParseJsonResponse("}{", parse) == Raise(EmptyDocumentMessage)
  {
    var s := "}{";
    assert s[1] == '{' && '{' !in s[..1];
    assert s[0] == '}' && '}' !in s[1..];
  }
}
