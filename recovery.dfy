/** Recovery of the analysis object from the model's raw reply: parse the whole
    text as JSON; if that fails, parse the span from the first '{' to the last
    '}' (what `re.search(r'\{.*\}', raw, re.DOTALL)` matches); then read
    `for_user` (default "") and `for_crm` (default {}). The JSON decoder itself
    is a parameter `parse`, None standing for `json.JSONDecodeError`. */
module Recovery {
  import opened Wrappers
  import opened Json

  datatype RecoveryError =
    | NoJsonFound            // HTTPException(500, "Ошибка парсинга ответа"): no {...} span
    | CandidateParseFailed   // json.JSONDecodeError raised by parsing the span
    | NotAnObject            // `result.get` on a decoded value that is not a dict

  /** The two payloads the pipeline keeps from the decoded reply. */
  datatype Analysis = Analysis(forUser: Json, forCrm: Json)

  function FirstIndexOf(s: string, c: char): (r: Option<nat>)
    ensures r.None? <==> c !in s
    ensures r.Some? ==> r.value < |s| && s[r.value] == c && c !in s[..r.value]
  {
    if s == [] then None
    else if s[0] == c then Some(0)
    else
      match FirstIndexOf(s[1..], c)
      case None => None
      case Some(i) =>
        assert s[..i + 1] == [s[0]] + s[1..][..i];
        Some(i + 1)
  }

  function LastIndexOf(s: string, c: char): (r: Option<nat>)
    ensures r.None? <==> c !in s
    ensures r.Some? ==> r.value < |s| && s[r.value] == c && c !in s[r.value + 1..]
  {
    if s == [] then None
    else if s[|s| - 1] == c then Some(|s| - 1)
    else
      var prefix := s[..|s| - 1];
      assert s == prefix + [s[|s| - 1]];
      match LastIndexOf(prefix, c)
      case None => None
      case Some(j) =>
        assert s[j + 1..] == prefix[j + 1..] + [s[|s| - 1]];
        Some(j)
  }

  /** The text matched by the greedy, dot-matches-all `\{.*\}` search. */
  function Candidate(s: string): (r: Option<string>)
  {
    match FirstIndexOf(s, '{')
    case None => None
    case Some(i) =>
      match LastIndexOf(s, '}')
      case None => None
      case Some(j) => if i < j then Some(s[i..j + 1]) else None
  }

  /** The span s[i..j] is a match of `\{.*\}` (with '.' matching any character). */
  predicate MatchSpan(s: string, i: int, j: int)
  {
    0 <= i < j < |s| && s[i] == '{' && s[j] == '}'
  }

  /** `Candidate` is the regex search's answer: there is none exactly when no
      span matches; otherwise it is the match with the leftmost start and, for
      that start, the longest extent. It starts with '{' and ends with '}'. */
  lemma CandidateIsLeftmostLongest(s: string)
    ensures Candidate(s).None? <==> forall i, j :: !MatchSpan(s, i, j)
    ensures Candidate(s).Some? ==>
      exists i, j :: MatchSpan(s, i, j) && Candidate(s).value == s[i..j + 1] &&
        forall i', j' :: MatchSpan(s, i', j') ==> i <= i' && (i' == i ==> j' <= j)
    ensures Candidate(s).Some? ==>
      var c := Candidate(s).value; |c| >= 2 && c[0] == '{' && c[|c| - 1] == '}'
  {
    match FirstIndexOf(s, '{')
    case None =>
      forall i, j | 0 <= i < |s| ensures !MatchSpan(s, i, j) {
        assert s[i] in s;
      }
    case Some(i) =>
      assert forall i' :: 0 <= i' < i ==> s[i'] != '{' by {
        forall i' | 0 <= i' < i ensures s[i'] != '{' {
          assert s[..i][i'] == s[i'];
        }
      }
      match LastIndexOf(s, '}')
      case None =>
        forall i', j | 0 <= j < |s| ensures !MatchSpan(s, i', j) {
          assert s[j] in s;
        }
      case Some(j) =>
        assert forall j' :: j < j' < |s| ==> s[j'] != '}' by {
          forall j' | j < j' < |s| ensures s[j'] != '}' {
            assert s[j + 1..][j' - j - 1] == s[j'];
          }
        }
        if i < j {
          assert MatchSpan(s, i, j);
        }
  }

  /** `json.loads(raw)`, falling back to `json.loads(match.group())`. */
  function Recover(raw: string, parse: string -> Option<Json>): (r: Result<Json, RecoveryError>)
  {
    match parse(raw)
    case Some(v) => Success(v)
    case None =>
      match Candidate(raw)
      case None => Failure(NoJsonFound)
      case Some(c) =>
        match parse(c)
        case Some(v) => Success(v)
        case None => Failure(CandidateParseFailed)
  }

  /** `result.get("for_user", "")` and `result.get("for_crm", {})`. */
  function ExtractAnalysis(result: Json): (r: Result<Analysis, RecoveryError>)
    ensures r.Failure? <==> !result.JObject?
    ensures r.Failure? ==> r.error == NotAnObject
    ensures r.Success? ==>
      && r.value.forUser == (match Lookup(result.members, "for_user")
                             case Some(v) => v case None => JString(""))
      && r.value.forCrm == (match Lookup(result.members, "for_crm")
                            case Some(v) => v case None => JObject([]))
  {
    match result
    case JObject(members) =>
      Success(Analysis(GetOr(members, "for_user", JString("")), GetOr(members, "for_crm", JObject([]))))
    case _ => Failure(NotAnObject)
  }

  /** Lines 152-162 of the backend: recovery, then the two lookups. */
  function RecoverAnalysis(raw: string, parse: string -> Option<Json>): Result<Analysis, RecoveryError>
  {
    match Recover(raw, parse)
    case Success(result) => ExtractAnalysis(result)
    case Failure(e) => Failure(e)
  }

  // ---------------------------------------------------------------------------
  // Properties

  /** The three outcomes: a reply that parses as a whole is used as it is and
      no span is tried; otherwise the leftmost-longest {...} span is parsed;
      with no such span the result is the 500 parse error. */
  lemma RecoverOutcomes(raw: string, parse: string -> Option<Json>)
    ensures parse(raw).Some? ==> Recover(raw, parse) == Success(parse(raw).value)
    ensures parse(raw).None? && (forall i, j :: !MatchSpan(raw, i, j)) ==>
      Recover(raw, parse) == Failure(NoJsonFound)
    ensures parse(raw).None? && (exists i, j :: MatchSpan(raw, i, j)) ==>
      exists i, j ::
        && MatchSpan(raw, i, j)
        && (forall i', j' :: MatchSpan(raw, i', j') ==> i <= i' && (i' == i ==> j' <= j))
        && Recover(raw, parse) ==
             (match parse(raw[i..j + 1])
              case Some(v) => Success(v)
              case None => Failure(CandidateParseFailed))
  {
    CandidateIsLeftmostLongest(raw);
  }

  /** A JSON object surrounded by text that holds no '{' before it and no '}'
      after it (prose, a fenced code block) is recovered from the span even
      though nothing strips the wrapping, provided the whole reply does not
      parse on its own. */
  lemma WrappedObjectRecovered(before: string, body: string, after: string, parse: string -> Option<Json>)
    requires '{' !in before && '}' !in after
    requires |body| >= 2 && body[0] == '{' && body[|body| - 1] == '}'
    requires parse(before + body + after).None?
    ensures Recover(before + body + after, parse) ==
      (match parse(body) case Some(v) => Success(v) case None => Failure(CandidateParseFailed))
  {
    var s := before + body + after;
    var i, j := |before|, |before| + |body| - 1;
    FirstIndexAfterFree(before, body + after, '{');
    assert s == before + (body + after);
    LastIndexBeforeFree(before + body, after, '}');
    assert s[i..j + 1] == body;
  }

  /** A character absent from a prefix is first found where the rest begins with it. */
  lemma FirstIndexAfterFree(a: string, b: string, c: char)
    requires c !in a && b != [] && b[0] == c
    ensures FirstIndexOf(a + b, c) == Some(|a|)
  {
    var s := a + b;
    assert s[|a|] == c;
    assert s[..|a|] == a;
  }

  /** A character absent from a suffix is last found where the rest ends with it. */
  lemma LastIndexBeforeFree(a: string, b: string, c: char)
    requires c !in b && a != [] && a[|a| - 1] == c
    ensures LastIndexOf(a + b, c) == Some(|a| - 1)
  {
    var s := a + b;
    assert s[|a| - 1] == c;
    assert s[|a|..] == b;
  }

  /** The reply of the form "```json\n{...}\n```" is recovered through the span. */
  lemma FencedReplyRecovered(body: string, parse: string -> Option<Json>)
    requires |body| >= 2 && body[0] == '{' && body[|body| - 1] == '}'
    requires parse("```json\n" + body + "\n```").None?
    ensures Recover("```json\n" + body + "\n```", parse) ==
      (match parse(body) case Some(v) => Success(v) case None => Failure(CandidateParseFailed))
  {
    WrappedObjectRecovered("```json\n", body, "\n```", parse);
  }

  /** A whole reply that parses to something other than an object fails with
      the `.get` error, even when some span of it would parse to an object. */
  lemma WholeNonObjectIsFatal(raw: string, parse: string -> Option<Json>)
    requires parse(raw).Some? && !parse(raw).value.JObject?
    ensures RecoverAnalysis(raw, parse) == Failure(NotAnObject)
  {
  }
}
