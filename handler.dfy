/**
 * The serverless entry point of api/evaluate.js: a POST body is validated
 * for its required fields and, when none is missing, evaluated by a fresh
 * agent with the serverless constants.
 */
module Handler {
  import opened Wrappers
  import opened Records
  import opened Planner
  import opened LocalScorer
  import opened Assembler
  import opened Agent

  /** A JSON value as far as its JavaScript truthiness is concerned. */
  datatype JsValue = Null | Bool(b: bool) | Num(n: int) | Str(s: string) | Compound

  /** `!!v`: false, 0, "" and null are falsy; arrays and objects are truthy. */
  predicate Truthy(v: JsValue) {
    match v
    case Null => false
    case Bool(b) => b
    case Num(n) => n != 0
    case Str(s) => s != ""
    case Compound => true
  }

  /** An absent field reads as `undefined`, which is falsy. */
  predicate Present(body: map<string, JsValue>, field: string) {
    field in body && Truthy(body[field])
  }

  const REQUIRED_FIELDS: seq<string> := ["projectTitle", "coreIdea", "targetAudience"]

  /** `requiredFields.filter(field => !projectData[field])`. */
  function MissingFrom(fields: seq<string>, body: map<string, JsValue>): seq<string>
    decreases |fields|
  {
    if fields == [] then []
    else (if Present(body, fields[0]) then [] else [fields[0]]) + MissingFrom(fields[1..], body)
  }

  function MissingFields(body: map<string, JsValue>): seq<string> {
    MissingFrom(REQUIRED_FIELDS, body)
  }

  /**
   * The missing fields are exactly the falsy required ones, each once, in
   * the order `projectTitle`, `coreIdea`, `targetAudience`.
   */
  lemma {:induction false} MissingFromExact(fields: seq<string>, body: map<string, JsValue>)
    ensures forall f :: f in MissingFrom(fields, body) <==> f in fields && !Present(body, f)
    ensures |MissingFrom(fields, body)| <= |fields|
    ensures forall i, j :: 0 <= i < j < |MissingFrom(fields, body)| ==>
      exists a, b :: 0 <= a < b < |fields| && fields[a] == MissingFrom(fields, body)[i] && fields[b] == MissingFrom(fields, body)[j]
    decreases |fields|
  {
    if fields != [] {
      var rest := MissingFrom(fields[1..], body);
      MissingFromExact(fields[1..], body);
      var m := MissingFrom(fields, body);
      var head := if Present(body, fields[0]) then [] else [fields[0]];
      assert m == head + rest;
      forall i, j | 0 <= i < j < |m|
        ensures exists a, b :: 0 <= a < b < |fields| && fields[a] == m[i] && fields[b] == m[j]
      {
        if |head| == 1 && i == 0 {
          assert m[j] in fields[1..];
          var b :| 0 <= b < |fields[1..]| && fields[1..][b] == m[j];
          assert fields[0] == m[i] && fields[b + 1] == m[j];
        } else {
          var a, b :| 0 <= a < b < |fields[1..]| && fields[1..][a] == m[i] && fields[1..][b] == m[j];
          assert fields[a + 1] == m[i] && fields[b + 1] == m[j];
        }
      }
    }
  }

  lemma MissingFieldsExact(body: map<string, JsValue>)
    ensures forall f :: f in MissingFields(body) <==> f in REQUIRED_FIELDS && !Present(body, f)
    ensures MissingFields(body) == [] <==>
      Present(body, "projectTitle") && Present(body, "coreIdea") && Present(body, "targetAudience")
    ensures |MissingFields(body)| <= 3
  {
    MissingFromExact(REQUIRED_FIELDS, body);
    if MissingFields(body) != [] {
      assert MissingFields(body)[0] in MissingFields(body);
    }
  }

  /** A field's string value; absent, falsy or non-string fields read as "". */
  function FieldText(body: map<string, JsValue>, field: string): string {
    if field in body && body[field].Str? then body[field].s else ""
  }

  function SubmissionOf(body: map<string, JsValue>): Submission {
    Submission(FieldText(body, "projectTitle"), FieldText(body, "coreIdea"), FieldText(body, "problemSolved"),
               FieldText(body, "targetAudience"), FieldText(body, "uniqueApproach"), FieldText(body, "businessModel"))
  }

  datatype Response = BadRequest(missingFields: seq<string>) | Ok(result: Evaluation)

  /**
   * The POST path of the handler: 400 with the missing fields when any
   * required field is falsy, otherwise 200 with the evaluation of a fresh
   * serverless agent.
   */
  method Handle(body: map<string, JsValue>, search: Search, llm: Option<Analysis>, serperConfigured: bool)
    returns (response: Response)
    ensures response.BadRequest? <==> MissingFields(body) != []
    ensures response.BadRequest? ==> response.missingFields == MissingFields(body)
    ensures response.Ok? ==> response.result == EvaluationOf(Serverless, SubmissionOf(body), search, llm, serperConfigured)
  {
    var missingFields := MissingFields(body);
    if |missingFields| > 0 {
      return BadRequest(missingFields);
    }
    var agent := new VibeClubAgent(Serverless, serperConfigured);
    var result := agent.Evaluate(SubmissionOf(body), search, llm);
    return Ok(result);
  }
}
